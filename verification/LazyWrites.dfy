/** The steps of the lazy skip list that write links, marks and the head, and the theorem for whole runs. */
module LazyWrites {
  import opened Options
  import opened LazyHeap
  import opened LazySkipList
  import opened LazyInvariant
  import opened LazyProofs

  /** Locks are as before; new nodes are unlocked. */
  ghost predicate LocksSame(h: Heap, g: Heap) {
    forall id :: id in g ==> g[id].lock == if id in h then h[id].lock else None
  }

  lemma LocksKept(h: Heap, g: Heap, threads: map<Tid, Thread>, t: Tid, th: Thread)
    requires LocksOK(h, threads) && LocksSame(h, g) && t in threads && Held(threads[t]) <= Held(th)
    ensures LocksOK(g, threads[t := th])
  {
    hide Held;
    forall id | id in g && g[id].lock.Some?
      ensures g[id].lock.value in threads[t := th] && id in Held(threads[t := th][g[id].lock.value])
    {
      assert id in h && h[id].lock == g[id].lock;
    }
  }

  lemma OwnsKept(h: Heap, g: Heap, t: Tid, th: Thread, th': Thread)
    requires Owns(h, t, th) && LocksSame(h, g) && Held(th') == Held(th) && h.Keys <= g.Keys
    ensures Owns(g, t, th')
  {
    hide Held;
  }

  /** Heads keep their mark, and nobody leaves the replacing step. */
  lemma HeadsKept(h: Heap, g: Heap, head: Id, threads: map<Tid, Thread>, t: Tid, th: Thread)
    requires HeadsOK(h, head, threads) && LocksSame(h, g) && t in threads && threads[t].Busy?
    requires forall id :: id in g && g[id].isHead ==> id in h && g[id] == h[id].(skip := g[id].skip)
    ensures HeadsOK(g, head, threads[t := th])
  {
    forall id | id in g && g[id].isHead && g[id].reached > 0 && id != head
      ensures g[id].marked || BeingReplaced(g[id], id, threads[t := th])
    {
      assert h[id].marked || BeingReplaced(h[id], id, threads);
    }
  }

  /** The general form of a write: heap, log and the writer's view are fine, others keep what they rely on. */
  lemma WriteStep(s: State, t: Tid, s': State)
    requires Inv(s) && t in s.threads && t in s'.threads && s'.threads == s.threads[t := s'.threads[t]]
    requires HeapOK(s'.heap, s'.head) && LogOK(s'.heap, s'.log) && HeadsOK(s'.heap, s'.head, s'.threads)
    requires LocksSame(s.heap, s'.heap) && Held(s'.threads[t]) == Held(s.threads[t]) && s.heap.Keys <= s'.heap.Keys
    requires s'.threads[t].Busy? ==> BusyOK(s'.heap, s'.head, t, s'.threads[t])
    requires s'.threads[t].Growing? ==> GrowingOK(s'.heap, s'.head, t, s'.threads[t])
    requires forall u :: u in s.threads && u != t ==> Rely(s.heap, s.head, s'.heap, s'.head, u)
    ensures Inv(s')
  {
    MyLocal(s, t);
    assert LocksOK(s.heap, s.threads);
    hide HeapOK, LogOK, HeadsOK, BusyOK, GrowingOK, Rely, Held, Inv;
    LocksKept(s.heap, s'.heap, s.threads, t, s'.threads[t]);
    OwnsKept(s.heap, s'.heap, t, s.threads[t], s'.threads[t]);
    Combine(s, t, s');
  }

  lemma MyParts(s: State)
    requires Inv(s)
    ensures HeapOK(s.heap, s.head) && LogOK(s.heap, s.log) && HeadsOK(s.heap, s.head, s.threads)
  {}

  // ---------------------------------------------------------------- the log

  lemma LogAppend(log: seq<Event>, e: Event, k: int)
    ensures Present(log + [e], k) <==> if e.key == k then e.Added? else Present(log, k)
  {
    assert (log + [e])[..|log|] == log;
  }

  lemma AlternatesAppend(log: seq<Event>, e: Event)
    requires Alternates(log) && (e.Added? <==> !Present(log, e.key))
    ensures Alternates(log + [e])
  {
    var log' := log + [e];
    forall i | 0 <= i < |log'| ensures log'[i].Added? <==> !Present(log'[..i], log'[i].key) {
      if i < |log| {
        assert log'[..i] == log[..i];
      } else {
        assert log'[..i] == log;
      }
    }
  }

  /** A live node is linked, so there is one of its key at most. */
  lemma LiveIsLinked(h: Heap, head: Id, id: Id)
    requires HeapOK(h, head) && id in h && Live(h[id])
    ensures h[id].layers > 0
  {
    assert NodeOK(h[id]);
  }

  /** Liveness of keys other than k is untouched. */
  lemma LogStep(h: Heap, g: Heap, log: seq<Event>, e: Event)
    requires LogOK(h, log) && (e.Added? <==> !HasLive(h, e.key))
    requires forall k :: k != e.key ==> (HasLive(g, k) <==> HasLive(h, k))
    requires HasLive(g, e.key) <==> e.Added?
    ensures LogOK(g, log + [e])
  {
    hide HasLive;
    AlternatesAppend(log, e);
    forall k ensures Present(log + [e], k) <==> HasLive(g, k) {
      LogAppend(log, e, k);
    }
  }

  lemma LogKept(h: Heap, g: Heap, log: seq<Event>)
    requires LogOK(h, log)
    requires forall id :: id in h ==> id in g && g[id].key == h[id].key && (Live(g[id]) <==> Live(h[id]))
    requires forall id :: id in g && id !in h ==> !Live(g[id])
    ensures LogOK(g, log)
  {
    forall k ensures HasLive(g, k) <==> HasLive(h, k) {
      if HasLive(g, k) { var id :| id in g && Live(g[id]) && g[id].key == k; assert id in h; }
      if HasLive(h, k) { var id :| id in h && Live(h[id]) && h[id].key == k; assert id in g; }
    }
  }

  /** Nothing that the log, the locks or the heads depend on has changed. */
  ghost predicate Frame(h: Heap, g: Heap) {
    && (forall id :: id in h ==> id in g)
    && (forall id :: id in g ==>
        if id in h then FrameNode(h[id], g[id]) else !Live(g[id]) && !g[id].isHead && g[id].lock == None)
  }

  ghost predicate FrameNode(a: Node, b: Node) {
    && b.lock == a.lock && b.key == a.key && b.isHead == a.isHead && (Live(b) <==> Live(a))
    && (a.isHead ==> b == a.(skip := b.skip))
  }

  lemma FrameKeeps(h: Heap, g: Heap, head: Id, threads: map<Tid, Thread>, t: Tid, th: Thread, log: seq<Event>)
    requires Frame(h, g) && LogOK(h, log) && HeadsOK(h, head, threads) && t in threads && threads[t].Busy?
    ensures LogOK(g, log) && HeadsOK(g, head, threads[t := th]) && LocksSame(h, g) && h.Keys <= g.Keys
  {
    forall id | id in h ensures id in g && FrameNode(h[id], g[id]) {}
    hide Live, LogOK, HeadsOK;
    LogKept(h, g, log);
    HeadsKept(h, g, head, threads, t, th);
  }

  // ---------------------------------------------------------------- marking the victim

  lemma MarkKeeps(h: Heap, head: Id, v: Id)
    requires HeapOK(h, head) && v in h && (h[v].isHead || h[v].linked)
    ensures HeapOK(h[v := h[v].(marked := true)], head)
  {
    var g := h[v := h[v].(marked := true)];
    hide LayersOK, LinksOK, OneOfAKey, HeadOK;
    assert NodeOK(h[v]);
    assert NodesOK(g);
    ShapeKept(h, g, head);
  }

  lemma MarkRely(h: Heap, head: Id, v: Id, t: Tid, u: Tid)
    requires HeapOK(h, head) && v in h && h[v].lock == Some(t) && u != t && !Unfinished(h[v])
    ensures Rely(h, head, h[v := h[v].(marked := true)], head, u)
  {
    var g := h[v := h[v].(marked := true)];
    hide LayersOK, LinksOK, OneOfAKey;
    forall id | id in h ensures id in g && RelyNode(h[id], g[id], u) { assert NodeOK(h[id]); }
  }

  lemma MarkLog(h: Heap, head: Id, v: Id, log: seq<Event>)
    requires HeapOK(h, head) && LogOK(h, log) && v in h && Live(h[v])
    ensures LogOK(h[v := h[v].(marked := true)], log + [Removed(h[v].key)])
  {
    var g := h[v := h[v].(marked := true)];
    assert HasLive(h, h[v].key);
    forall id | id in g && Live(g[id]) ensures g[id].key != h[v].key {
      LiveIsLinked(h, head, id);
      LiveIsLinked(h, head, v);
    }
    forall k | k != h[v].key ensures HasLive(g, k) <==> HasLive(h, k) {
      if HasLive(g, k) { var id :| id in g && Live(g[id]) && g[id].key == k; assert id in h && Live(h[id]); }
      if HasLive(h, k) { var id :| id in h && Live(h[id]) && h[id].key == k; assert id in g && Live(g[id]); }
    }
    hide HeapOK;
    LogStep(h, g, log, Removed(h[v].key));
  }

  lemma MarkVictimLocal(h: Heap, head: Id, t: Tid, th: Thread)
    requires HeapOK(h, head) && th.Busy? && th.pc == MarkVictim && BusyOK(h, head, t, th) && th.victim.Some?
    requires th.victim.value in h && !h[th.victim.value].marked && h[th.victim.value].lock == Some(t)
    ensures h[th.victim.value].key == th.data && Live(h[th.victim.value])
    ensures var v := th.victim.value;
            BusyOK(h[v := h[v].(marked := true)], head, t, th.(pc := Acquire, layer := 0))
  {
    var v := th.victim.value;
    var g := h[v := h[v].(marked := true)];
    MarkRely(h, head, v, t, t + 1);
    assert NodeOK(h[v]);
    hide HeapOK;
    SettledStable(h, head, g, head, t + 1, th.data, th.f, 0);
    hide Settled;
  }

  lemma MarkVictimInv(s: State, t: Tid, s': State)
    requires Inv(s) && DoMarkVictim(s, t, s')
    ensures Inv(s')
  {
    hide Inv, HeapOK, LogOK, BusyOK, HeadsOK, Rely;
    var th := s.threads[t];
    var v := th.victim.value;
    MyBusy(s, t);
    MyParts(s);
    OwnsGuards(s.heap, t, th);
    NoGuards(th);
    if s.heap[v].marked {
      DropLast(s, t, v, s');
    } else {
      var th' := th.(pc := Acquire, layer := 0);
      NoGuards(th');
      MarkVictimLocal(s.heap, s.head, t, th);
      MarkKeeps(s.heap, s.head, v);
      MarkLog(s.heap, s.head, v, s.log);
      HeadsKept(s.heap, s'.heap, s.head, s.threads, t, th');
      forall u | u in s.threads && u != t ensures Rely(s.heap, s.head, s'.heap, s.head, u) {
          MarkRely(s.heap, s.head, v, t, u); }
      WriteStep(s, t, s');
    }
  }

  // ---------------------------------------------------------------- a new node

  lemma NewRely(h: Heap, head: Id, id: Id, n: Node, u: Tid)
    requires HeapOK(h, head) && id !in h
    ensures Rely(h, head, h[id := n], head, u)
  {
    hide LayersOK, LinksOK, OneOfAKey;
    forall i | i in h ensures i in h[id := n] && RelyNode(h[i], h[id := n][i], u) { assert NodeOK(h[i]); }
  }

  /** Predecessors this thread has validated, in a heap where they are unchanged. */
  lemma PredsKept(h: Heap, g: Heap, head: Id, t: Tid, th: Thread, th': Thread)
    requires th.Busy? && th'.Busy? && th'.f == th.f && ChangingOK(h, head, t, th)
    requires ValidLayers(th') == ValidLayers(th) && forall j :: 0 <= j < ValidLayers(th) ==>
        Expected(th', j) == Expected(th, j)
    requires forall id :: id in Guarded(th) && id in h ==> id in g && g[id] == h[id]
    requires ValidLayers(th) <= LockedLayers(th)
    ensures forall j :: 0 <= j < ValidLayers(th') ==> PredValid(g, head, th', j)
  {
    hide NodeMine;
    forall j | 0 <= j < ValidLayers(th') ensures PredValid(g, head, th', j) {
      assert PredValid(h, head, th, j);
      assert th.f.preds[j] in Guarded(th);
      assert Expected(th', j) == Expected(th, j);
    }
  }

  lemma CreateLocal(h: Heap, head: Id, t: Tid, th: Thread, n: Id)
    requires HeapOK(h, head) && th.Busy? && th.pc == Create && BusyOK(h, head, t, th) && n !in h
    ensures 1 <= th.height
    ensures BusyOK(h[n := MadeNode(th, t)], head, t, th.(pc := Prepare, layer := 0, node := n))
  {
    var node := MadeNode(th, t);
    var g := h[n := node];
    var th' := th.(pc := Prepare, layer := 0, node := n);
    NewRely(h, head, n, node, t);
    assert head in h;
    hide HeapOK;
    SettledStable(h, head, g, head, t, th.data, th.f, 0);
    PredsKept(h, g, head, t, th, th');
    assert NodeMine(g, t, th');
    hide Settled, PredValid, NodeMine;
  }

  lemma CreateKeeps(h: Heap, head: Id, t: Tid, th: Thread, n: Id)
    requires HeapOK(h, head) && th.Busy? && th.pc == Create && th.height > 0 && n !in h
    ensures HeapOK(h[n := MadeNode(th, t)], head) && Frame(h, h[n := MadeNode(th, t)])
    ensures Held(th.(pc := Prepare, layer := 0, node := n)) == Held(th)
  {
    hide HeapOK;
    NewNode(h, head, n, MadeNode(th, t));
    assert Guarded(th.(pc := Prepare, layer := 0, node := n)) == Guarded(th);
  }

  lemma CreateInv(s: State, t: Tid, s': State)
    requires Inv(s) && DoCreate(s, t, s')
    ensures Inv(s')
  {
    hide Inv, HeapOK, LogOK, BusyOK, HeadsOK, Rely;
    var th := s.threads[t];
    MyBusy(s, t);
    MyParts(s);
    var n :| n !in s.heap && Write(s, t, th.(pc := Prepare, layer := 0, node := n), s.heap[n := MadeNode(th, t)], s');
    hide Frame, LocksSame, Held, Owns, MadeNode;
    CreateLocal(s.heap, s.head, t, th, n);
    CreateKeeps(s.heap, s.head, t, th, n);
    FrameKeeps(s.heap, s'.heap, s.head, s.threads, t, s'.threads[t], s.log);
    forall u | u in s.threads && u != t ensures Rely(s.heap, s.head, s'.heap, s.head, u) {
        NewRely(s.heap, s.head, n, s'.heap[n], u); }
    WriteStep(s, t, s');
  }

  // ---------------------------------------------------------------- preparing a link

  lemma PrepareRely(h: Heap, head: Id, id: Id, l: nat, next: Option<Id>, t: Tid, u: Tid)
    requires HeapOK(h, head) && id in h && !h[id].isHead && h[id].layers <= l < |h[id].skip| && h[id].maker == t &&
        u != t
    ensures Rely(h, head, h[id := h[id].(skip := h[id].skip[l := next])], head, u)
  {
    var g := h[id := h[id].(skip := h[id].skip[l := next])];
    hide LayersOK, LinksOK, OneOfAKey;
    forall i | i in h ensures i in g && RelyNode(h[i], g[i], u) { assert NodeOK(h[i]); }
  }

  /** Guards are below the key, so the node under construction is none of them. */
  lemma NodeUnguarded(h: Heap, head: Id, t: Tid, th: Thread)
    requires th.Busy? && BusyOK(h, head, t, th) && (th.pc == Prepare || th.pc == Link || th.pc == Announce)
    ensures th.node !in Guarded(th) && th.node in h && Settled(h, th.data, th.f, 0) && ChangingOK(h, head, t, th) &&
        NodeMine(h, t, th)
  {
    hide Descends;
    forall j | 0 <= j < LockedLayers(th) && j in th.f.preds ensures th.f.preds[j] != th.node {
      assert LayerFound(h, th.data, th.f, j);
    }
  }

  lemma PrepareLocal(h: Heap, head: Id, t: Tid, th: Thread)
    requires HeapOK(h, head) && th.Busy? && th.pc == Prepare && BusyOK(h, head, t, th)
    ensures th.node in h && th.layer < |h[th.node].skip| && th.layer in th.f.succs && !h[th.node].isHead &&
        h[th.node].maker == t
    ensures h[th.node].layers == th.layer && !Live(h[th.node])
    ensures var next := th.f.succs[th.layer];
            && (next.Some? ==> Seen(h, next.value, th.layer) && Less(h[th.node], h[next.value]))
            && BusyOK(h[th.node := h[th.node].(skip := h[th.node].skip[th.layer := next])], head, t, th.(pc := Link))
  {
    NodeUnguarded(h, head, t, th);
    SettledAt(h, th.data, th.f, 0, th.layer);
    var next := th.f.succs[th.layer];
    var g := h[th.node := h[th.node].(skip := h[th.node].skip[th.layer := next])];
    var th' := th.(pc := Link);
    PrepareRely(h, head, th.node, th.layer, next, t, t + 1);
    assert head in h;
    hide HeapOK;
    SettledStable(h, head, g, head, t + 1, th.data, th.f, 0);
    PredsKept(h, g, head, t, th, th');
    assert NodeMine(g, t, th');
    hide Settled, PredValid, NodeMine;
  }

  lemma PrepareInv(s: State, t: Tid, s': State)
    requires Inv(s) && DoPrepare(s, t, s')
    ensures Inv(s')
  {
    hide Inv, HeapOK, LogOK, BusyOK, HeadsOK, Rely;
    var th := s.threads[t];
    MyBusy(s, t);
    MyParts(s);
    PrepareLocal(s.heap, s.head, t, th);
    PrepareLink(s.heap, s.head, th.node, th.layer, th.f.succs[th.layer]);
    assert Frame(s.heap, s'.heap);
    FrameKeeps(s.heap, s'.heap, s.head, s.threads, t, s'.threads[t], s.log);
    assert Guarded(s'.threads[t]) == Guarded(th);
    hide Frame, LocksSame;
    forall u | u in s.threads && u != t ensures Rely(s.heap, s.head, s'.heap, s.head, u) {
      PrepareRely(s.heap, s.head, th.node, th.layer, th.f.succs[th.layer], t, u);
    }
    WriteStep(s, t, s');
  }

  // ---------------------------------------------------------------- linking

  lemma LinkRely(h: Heap, head: Id, pred: Id, node: Id, l: nat, t: Tid, u: Tid)
    requires HeapOK(h, head) && CanLink(h, head, pred, node, l) && pred != node && h[pred].lock == Some(t) &&
        h[node].maker == t && u != t
    ensures Rely(h, head, LinkedHeap(h, pred, node, l), head, u)
  {
    var g := LinkedHeap(h, pred, node, l);
    hide LayersOK, LinksOK, OneOfAKey;
    forall i | i in h ensures i in g && RelyNode(h[i], g[i], u) { assert NodeOK(h[i]); }
  }

  lemma LinkReady(h: Heap, head: Id, t: Tid, th: Thread)
    requires HeapOK(h, head) && th.Busy? && th.pc == Link && BusyOK(h, head, t, th)
    ensures th.layer in th.f.preds && th.f.preds[th.layer] != th.node &&
        CanLink(h, head, th.f.preds[th.layer], th.node, th.layer)
    ensures th.layer < th.height && h[th.node].maker == t
  {
    NodeUnguarded(h, head, t, th);
    SettledAt(h, th.data, th.f, 0, th.layer);
    assert PredValid(h, head, th, th.layer);
    assert th.f.preds[th.layer] in Guarded(th);
    assert head in h && th.height <= h[head].height;
  }

  /** What the thread goes on with after linking a layer. */
  function AfterLink(th: Thread): Thread
    requires th.Busy?
  {
    if th.layer + 1 < th.height then th.(pc := Prepare, layer := th.layer + 1) else th.(pc := Announce)
  }

  lemma LinkPreds(h: Heap, head: Id, t: Tid, th: Thread, j: nat)
    requires HeapOK(h, head) && th.Busy? && th.pc == Link && BusyOK(h, head, t, th) && j < th.height
    requires th.layer in th.f.preds && th.f.preds[th.layer] != th.node &&
        CanLink(h, head, th.f.preds[th.layer], th.node, th.layer)
    ensures PredValid(LinkedHeap(h, th.f.preds[th.layer], th.node, th.layer), head, AfterLink(th), j)
  {
    hide HeapOK, BusyOK;
    NodeUnguarded(h, head, t, th);
    ValidPred(h, head, t, th, j);
  }

  lemma ValidPred(h: Heap, head: Id, t: Tid, th: Thread, j: nat)
    requires th.Busy? && (th.pc == Link || th.pc == Unlink) && BusyOK(h, head, t, th) && j < th.height
    ensures PredValid(h, head, th, j) && th.f.preds[j] in Guarded(th)
  {}

  lemma LinkLocal(h: Heap, head: Id, t: Tid, th: Thread)
    requires HeapOK(h, head) && th.Busy? && th.pc == Link && BusyOK(h, head, t, th) && th.layer in th.f.preds
    requires th.f.preds[th.layer] in h && h[th.f.preds[th.layer]].lock == Some(t)
    requires th.f.preds[th.layer] != th.node && CanLink(h, head, th.f.preds[th.layer], th.node, th.layer) &&
        h[th.node].maker == t
    ensures BusyOK(LinkedHeap(h, th.f.preds[th.layer], th.node, th.layer), head, t, AfterLink(th))
  {
    var p := th.f.preds[th.layer];
    var g, th' := LinkedHeap(h, p, th.node, th.layer), AfterLink(th);
    NodeUnguarded(h, head, t, th);
    LinkRely(h, head, p, th.node, th.layer, t, t + 1);
    SettledStable(h, head, g, head, t + 1, th.data, th.f, 0);
    forall j | 0 <= j < th.height ensures PredValid(g, head, th', j) { LinkPreds(h, head, t, th, j); }
    assert NodeMine(g, t, th');
    assert head in h;
    hide HeapOK, Settled, PredValid, NodeMine;
  }

  lemma LinkFrame(h: Heap, head: Id, pred: Id, node: Id, l: nat)
    requires CanLink(h, head, pred, node, l) && pred != node
    ensures Frame(h, LinkedHeap(h, pred, node, l))
  {}

  lemma LinkGuards(th: Thread)
    requires th.Busy? && th.pc == Link
    ensures Guarded(AfterLink(th)) == Guarded(th) && Held(AfterLink(th)) == Held(th)
  {
    assert Guarded(AfterLink(th)) == Guarded(th);
  }

  lemma LinkInv(s: State, t: Tid, s': State)
    requires Inv(s) && DoLink(s, t, s')
    ensures Inv(s')
  {
    hide Inv, HeapOK, LogOK, BusyOK, HeadsOK, Rely;
    var th := s.threads[t];
    MyBusy(s, t);
    MyParts(s);
    LinkReady(s.heap, s.head, t, th);
    hide CanLink, LinkedHeap, Frame, LocksSame, Guarded;
    GuardHeld(s.heap, t, th, th.layer);
    LinkLocal(s.heap, s.head, t, th);
    LinkKeeps(s.heap, s.head, th.f.preds[th.layer], th.node, th.layer);
    LinkFrame(s.heap, s.head, th.f.preds[th.layer], th.node, th.layer);
    FrameKeeps(s.heap, s'.heap, s.head, s.threads, t, s'.threads[t], s.log);
    LinkGuards(th);
    forall u | u in s.threads && u != t ensures Rely(s.heap, s.head, s'.heap, s.head, u) {
      LinkRely(s.heap, s.head, th.f.preds[th.layer], th.node, th.layer, t, u);
    }
    WriteStep(s, t, s');
  }

  // ---------------------------------------------------------------- announcing

  lemma AnnounceReady(h: Heap, head: Id, t: Tid, th: Thread)
    requires HeapOK(h, head) && th.Busy? && th.pc == Announce && BusyOK(h, head, t, th)
    ensures th.node in h && !h[th.node].isHead && h[th.node].key == th.data && h[th.node].maker == t
    ensures !h[th.node].linked && !h[th.node].marked && h[th.node].layers == h[th.node].reached == h[th.node].height > 0
  {
    NodeUnguarded(h, head, t, th);
    assert NodeOK(h[th.node]);
  }

  lemma AnnounceRely(h: Heap, head: Id, node: Id, t: Tid, u: Tid)
    requires HeapOK(h, head) && node in h && h[node].maker == t && !h[node].linked && u != t
    ensures Rely(h, head, h[node := h[node].(linked := true)], head, u)
  {
    var g := h[node := h[node].(linked := true)];
    hide LayersOK, LinksOK, OneOfAKey;
    forall i | i in h ensures i in g && RelyNode(h[i], g[i], u) { assert NodeOK(h[i]); }
  }

  lemma AnnounceKeeps(h: Heap, head: Id, node: Id)
    requires HeapOK(h, head) && node in h && !h[node].isHead && h[node].reached == h[node].height
    ensures HeapOK(h[node := h[node].(linked := true)], head)
  {
    var g := h[node := h[node].(linked := true)];
    hide LayersOK, LinksOK, OneOfAKey, HeadOK;
    assert NodeOK(h[node]);
    assert NodesOK(g);
    ShapeKept(h, g, head);
  }

  lemma AnnounceLog(h: Heap, head: Id, node: Id, log: seq<Event>)
    requires HeapOK(h, head) && LogOK(h, log) && node in h && !h[node].isHead && !h[node].linked && !h[node].marked &&
        h[node].layers > 0
    ensures LogOK(h[node := h[node].(linked := true)], log + [Added(h[node].key)])
  {
    var g, k0 := h[node := h[node].(linked := true)], h[node].key;
    forall id | id in h && Live(h[id]) ensures h[id].key != k0 {
      LiveIsLinked(h, head, id);
    }
    assert !HasLive(h, k0);
    assert node in g && Live(g[node]) && g[node].key == k0;
    assert HasLive(g, k0);
    forall k | k != k0 ensures HasLive(g, k) <==> HasLive(h, k) {
      if HasLive(g, k) { var id :| id in g && Live(g[id]) && g[id].key == k; assert id in h && Live(h[id]); }
      if HasLive(h, k) { var id :| id in h && Live(h[id]) && h[id].key == k; assert id in g && Live(g[id]); }
    }
    hide HeapOK, HasLive, LogOK;
    LogStep(h, g, log, Added(k0));
  }

  lemma AnnounceLocal(h: Heap, head: Id, t: Tid, th: Thread)
    requires HeapOK(h, head) && th.Busy? && th.pc == Announce && BusyOK(h, head, t, th)
    requires th.node in h && h[th.node].maker == t && !h[th.node].linked
    ensures BusyOK(h[th.node := h[th.node].(linked := true)], head, t, th.(pc := Count))
  {
    var g, th' := h[th.node := h[th.node].(linked := true)], th.(pc := Count);
    NodeUnguarded(h, head, t, th);
    AnnounceRely(h, head, th.node, t, t + 1);
    SettledStable(h, head, g, head, t + 1, th.data, th.f, 0);
    PredsKept(h, g, head, t, th, th');
    assert head in h;
    hide HeapOK, Settled, PredValid, NodeMine;
  }

  lemma AnnounceInv(s: State, t: Tid, s': State)
    requires Inv(s) && DoAnnounce(s, t, s')
    ensures Inv(s')
  {
    hide Inv, HeapOK, LogOK, BusyOK, HeadsOK, Rely;
    var th := s.threads[t];
    MyBusy(s, t);
    MyParts(s);
    AnnounceReady(s.heap, s.head, t, th);
    AnnounceKeeps(s.heap, s.head, th.node);
    AnnounceLog(s.heap, s.head, th.node, s.log);
    AnnounceLocal(s.heap, s.head, t, th);
    HeadsKept(s.heap, s'.heap, s.head, s.threads, t, s'.threads[t]);
    assert Guarded(s'.threads[t]) == Guarded(th);
    forall u | u in s.threads && u != t ensures Rely(s.heap, s.head, s'.heap, s.head, u) {
        AnnounceRely(s.heap, s.head, th.node, t, u); }
    assert LocksSame(s.heap, s'.heap);
    hide LocksSame, Guarded;
    WriteStep(s, t, s');
  }

  // ---------------------------------------------------------------- unlinking

  lemma UnlinkReady(h: Heap, head: Id, t: Tid, th: Thread)
    requires HeapOK(h, head) && th.Busy? && th.pc == Unlink && BusyOK(h, head, t, th)
    ensures th.layer < th.height && th.layer in th.f.preds && th.victim.Some? && th.victim.value in h
    ensures CanUnlink(h, head, th.f.preds[th.layer], th.victim.value, th.layer) && th.victim.value !in Guarded(th)
    ensures th.f.preds[th.layer] != th.victim.value && h[th.victim.value].linked
  {
    VictimUnguarded(h, head, t, th);
    assert PredValid(h, head, th, th.layer);
    assert VictimOK(h, th);
    assert NodeOK(h[th.victim.value]);
    assert th.f.preds[th.layer] in Guarded(th);
  }

  lemma UnlinkRely(h: Heap, head: Id, pred: Id, victim: Id, l: nat, t: Tid, u: Tid)
    requires HeapOK(h, head) && CanUnlink(h, head, pred, victim, l) && pred != victim && h[pred].lock == Some(t) &&
        h[victim].lock == Some(t)
    requires h[victim].linked && u != t
    ensures Rely(h, head, UnlinkedHeap(h, pred, victim, l), head, u)
  {
    var g := UnlinkedHeap(h, pred, victim, l);
    hide LayersOK, LinksOK, OneOfAKey;
    forall i | i in h ensures i in g && RelyNode(h[i], g[i], u) { assert NodeOK(h[i]); }
  }

  lemma UnlinkFrame(h: Heap, head: Id, pred: Id, victim: Id, l: nat)
    requires CanUnlink(h, head, pred, victim, l) && pred != victim
    ensures Frame(h, UnlinkedHeap(h, pred, victim, l))
  {}

  /** What the thread goes on with after unlinking a layer. */
  function AfterUnlink(th: Thread): Thread
    requires th.Busy?
  {
    if th.layer > 0 then th.(layer := th.layer - 1) else th.(pc := Count)
  }

  lemma UnlinkPreds(h: Heap, head: Id, t: Tid, th: Thread, j: nat)
    requires HeapOK(h, head) && th.Busy? && th.pc == Unlink && BusyOK(h, head, t, th) && j < th.height
    requires th.layer in th.f.preds && th.victim.Some? && th.victim.value !in Guarded(th)
    requires th.f.preds[th.layer] != th.victim.value && CanUnlink(h, head, th.f.preds[th.layer], th.victim.value,
        th.layer)
    ensures PredValid(UnlinkedHeap(h, th.f.preds[th.layer], th.victim.value, th.layer), head, AfterUnlink(th), j)
  {
    hide HeapOK, BusyOK;
    ValidPred(h, head, t, th, j);
  }

  lemma UnlinkLocal(h: Heap, head: Id, t: Tid, th: Thread)
    requires HeapOK(h, head) && th.Busy? && th.pc == Unlink && BusyOK(h, head, t, th)
    requires th.layer in th.f.preds && th.victim.Some? && th.victim.value !in Guarded(th)
    requires th.f.preds[th.layer] != th.victim.value && CanUnlink(h, head, th.f.preds[th.layer], th.victim.value,
        th.layer)
    requires h[th.f.preds[th.layer]].lock == Some(t) && h[th.victim.value].lock == Some(t) && h[th.victim.value].linked
    ensures BusyOK(UnlinkedHeap(h, th.f.preds[th.layer], th.victim.value, th.layer), head, t, AfterUnlink(th))
  {
    var p := th.f.preds[th.layer];
    var g, th' := UnlinkedHeap(h, p, th.victim.value, th.layer), AfterUnlink(th);
    UnlinkRely(h, head, p, th.victim.value, th.layer, t, t + 1);
    assert Settled(h, th.data, th.f, 0) && VictimOK(h, th) && head in h;
    SettledStable(h, head, g, head, t + 1, th.data, th.f, 0);
    forall j | 0 <= j < th.height ensures PredValid(g, head, th', j) { UnlinkPreds(h, head, t, th, j); }
    assert VictimOK(g, th');
    hide HeapOK, Settled, PredValid, VictimOK;
  }

  lemma UnlinkInv(s: State, t: Tid, s': State)
    requires Inv(s) && DoUnlink(s, t, s')
    ensures Inv(s')
  {
    hide Inv, HeapOK, LogOK, BusyOK, HeadsOK, Rely, Frame, LocksSame;
    var th := s.threads[t];
    MyBusy(s, t);
    MyParts(s);
    UnlinkReady(s.heap, s.head, t, th);
    hide CanUnlink, UnlinkedHeap, Guarded;
    GuardHeld(s.heap, t, th, th.layer);
    OwnsGuards(s.heap, t, th);
    UnlinkLocal(s.heap, s.head, t, th);
    UnlinkKeeps(s.heap, s.head, th.f.preds[th.layer], th.victim.value, th.layer);
    UnlinkFrame(s.heap, s.head, th.f.preds[th.layer], th.victim.value, th.layer);
    FrameKeeps(s.heap, s'.heap, s.head, s.threads, t, s'.threads[t], s.log);
    UnlinkGuards(th);
    forall u | u in s.threads && u != t ensures Rely(s.heap, s.head, s'.heap, s.head, u) {
      UnlinkRely(s.heap, s.head, th.f.preds[th.layer], th.victim.value, th.layer, t, u);
    }
    WriteStep(s, t, s');
  }

  lemma UnlinkGuards(th: Thread)
    requires th.Busy? && th.pc == Unlink
    ensures Guarded(AfterUnlink(th)) == Guarded(th) && Held(AfterUnlink(th)) == Held(th)
  {
    assert Guarded(AfterUnlink(th)) == Guarded(th);
  }
}
