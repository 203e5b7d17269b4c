/** Every step of every thread keeps the invariant of the lazy skip list. */
module LazyProofs {
  import opened Options
  import opened LazyHeap
  import opened LazySkipList
  import opened LazyInvariant

  lemma Combine(s: State, t: Tid, s': State)
    requires Inv(s) && t in s'.threads && s'.threads == s.threads[t := s'.threads[t]]
    requires HeapOK(s'.heap, s'.head) && LocksOK(s'.heap, s'.threads) && HeadsOK(s'.heap, s'.head, s'.threads) &&
        LogOK(s'.heap, s'.log)
    requires Local(s'.heap, s'.head, t, s'.threads[t])
    requires forall u :: u in s.threads && u != t ==> Rely(s.heap, s.head, s'.heap, s'.head, u)
    ensures Inv(s')
  {
    hide Local, Rely, LocksOK, HeadsOK, LogOK;
    assert NodesOK(s'.heap);
    hide HeapOK;
    forall u | u in s'.threads ensures Local(s'.heap, s'.head, u, s'.threads[u]) {
      if u != t { LocalStable(s.heap, s.head, s'.heap, s'.head, u, s.threads[u]); }
    }
  }

  // ---------------------------------------------------------------- steps that only read

  lemma RelySame(h: Heap, head: Id, u: Tid)
    requires HeapOK(h, head)
    ensures Rely(h, head, h, head, u)
  {
    hide LayersOK, LinksOK, OneOfAKey;
    forall id | id in h ensures RelyNode(h[id], h[id], u) {
      assert NodeOK(h[id]);
    }
  }

  lemma ReadStep(s: State, t: Tid, th: Thread, s': State)
    requires Inv(s) && t in s.threads && s' == s.(threads := s.threads[t := th], size := s'.size)
    requires Held(s.threads[t]) <= Held(th) && !(s.threads[t].Growing? && s.threads[t].gpc == GMark)
    requires Local(s.heap, s.head, t, th)
    ensures Inv(s')
  {
    hide Local, Rely, HeapOK, LogOK;
    forall u ensures Rely(s.heap, s.head, s'.heap, s'.head, u) { RelySame(s.heap, s.head, u); }
    Combine(s, t, s');
  }

  /** The same for a thread that holds no predecessor locks. */
  lemma ReadOnly(s: State, t: Tid, th: Thread, s': State)
    requires Inv(s) && t in s.threads && s.threads[t].Busy? && th.Busy? && Stay(s, t, th, s')
    requires LockedLayers(s.threads[t]) == LockedLayers(th) == 0 && th.victim == s.threads[t].victim
    requires BusyOK(s.heap, s.head, t, th)
    ensures Inv(s')
  {
    MyLocal(s, t);
    hide Inv, BusyOK;
    assert Held(th) == Held(s.threads[t]);
    ReadStep(s, t, th, s');
  }

  lemma GiveUp(s: State, t: Tid, s': State)
    requires Inv(s) && t in s.threads && s.threads[t].Busy? && Stay(s, t, Idle, s')
    requires LockedLayers(s.threads[t]) == 0 && s.threads[t].victim == None
    ensures Inv(s')
  {
    hide Inv;
    assert Held(s.threads[t]) == {};
    ReadStep(s, t, Idle, s');
  }

  lemma MyBusy(s: State, t: Tid)
    requires Inv(s) && t in s.threads && s.threads[t].Busy?
    ensures BusyOK(s.heap, s.head, t, s.threads[t]) && Owns(s.heap, t, s.threads[t])
  {
    hide HeapOK, BusyOK, LocksOK, HeadsOK, LogOK;
    MyLocal(s, t);
  }

  lemma BeginInv(s: State, t: Tid, s': State)
    requires Inv(s) && Begin(s, t, s')
    ensures Inv(s')
  {
    hide HeapOK, LocksOK, HeadsOK, LogOK;
    var adding, data :| Stay(s, t, Busy(adding, data, ReadMax, NO_FIND, None, 0, 0, 0, 0), s');
    ReadStep(s, t, Busy(adding, data, ReadMax, NO_FIND, None, 0, 0, 0, 0), s');
  }

  lemma MyLocal(s: State, t: Tid)
    requires Inv(s) && t in s.threads
    ensures Local(s.heap, s.head, t, s.threads[t])
  {}

  lemma ReadMaxInv(s: State, t: Tid, s': State)
    requires Inv(s) && DoReadMax(s, t, s')
    ensures Inv(s')
  {
    var th := s.threads[t];
    MyBusy(s, t);
    assert HeadOK(s.heap, s.head);
    hide Inv, VictimOK, Owns;
    var th' := th.(pc := ReadHead, f := Find(s.heap[s.head].height - 1, map[], map[], -1, None));
    VictimPc(s.heap, th, th');
    ReadOnly(s, t, th', s');
  }

  /** The victim's state does not depend on what is read. */
  lemma VictimPc(h: Heap, th: Thread, th': Thread)
    requires th.Busy? && th'.Busy? && th'.victim == th.victim && th'.data == th.data && th'.adding == th.adding
    requires th.victim.Some? ==> VictimOK(h, th) && th'.height == th.height
    requires !Changing(th.pc) && th.pc != MarkVictim && th.pc != ReleaseVictim
    requires (!Changing(th'.pc) && th'.pc != MarkVictim && th'.pc != ReleaseVictim) || th'.pc == Acquire
    ensures th.victim.Some? ==> VictimOK(h, th') && h[th.victim.value].layers == th.height
  {}

  lemma ReadHeadInv(s: State, t: Tid, s': State)
    requires Inv(s) && DoReadHead(s, t, s')
    ensures Inv(s')
  {
    var th := s.threads[t];
    MyBusy(s, t);
    assert HeadOK(s.heap, s.head);
    hide Inv, VictimOK, Owns;
    var th' := th.(pc := Search, layer := th.f.maxLayer, pred := s.head);
    VictimPc(s.heap, th, th');
    ReadOnly(s, t, th', s');
  }

  // ---------------------------------------------------------------- searching

  lemma LinkAt(h: Heap, head: Id, id: Id, l: nat)
    requires HeapOK(h, head) && id in h && l < |h[id].skip|
    ensures LinkOK(h, id, l)
  {}

  lemma DescendsTrans(h: Heap, a: Id, b: Id, c: Id)
    requires Descends(h, b, c) && a in h && b in h && Less(h[b], h[a])
    ensures Descends(h, a, c)
  {}

  lemma MoveRight(h: Heap, head: Id, th: Thread, next: Id)
    requires HeapOK(h, head) && th.Busy? && Searching(h, th) && th.pred in h && th.layer < |h[th.pred].skip|
    requires h[th.pred].skip[th.layer] == Some(next) && next in h && h[next].key < th.data
    ensures Searching(h, th.(pred := next))
  {
    LinkAt(h, head, th.pred, th.layer);
    hide HeapOK, Settled;
    if th.layer < th.f.maxLayer { DescendsTrans(h, next, th.pred, PredAt(th.f, th.layer + 1)); }
  }

  lemma SettledUp(h: Heap, data: int, f: Find, g: Find, from: nat)
    requires Settled(h, data, f, from) && g.maxLayer == f.maxLayer && (f.found.Some? ==> g.found == f.found)
    requires forall l :: from <= l <= f.maxLayer ==>
        l in g.preds && l in g.succs && g.preds[l] == PredAt(f, l) && l in f.succs && g.succs[l] == f.succs[l]
    requires FoundOK(h, data, g) && (g.found.Some? ==> from <= g.foundLayer + 1)
    ensures forall l :: from <= l <= g.maxLayer ==> LayerFound(h, data, g, l)
    ensures forall l, l' :: from <= l < l' <= g.maxLayer ==> Descends(h, PredAt(g, l), PredAt(g, l'))
  {
    hide Seen, Less;
    forall l | from <= l <= g.maxLayer ensures LayerFound(h, data, g, l) {
      assert LayerFound(h, data, f, l);
    }
    forall l, l' | from <= l < l' <= g.maxLayer ensures Descends(h, PredAt(g, l), PredAt(g, l')) {
      assert Descends(h, PredAt(f, l), PredAt(f, l'));
    }
  }

  lemma SettledDown(h: Heap, data: int, f: Find, l: nat)
    requires l <= f.maxLayer && LayerFound(h, data, f, l) && FoundOK(h, data, f) &&
        (f.found.Some? ==> l <= f.foundLayer)
    requires forall a :: l + 1 <= a <= f.maxLayer ==> LayerFound(h, data, f, a)
    requires forall a, b :: l + 1 <= a < b <= f.maxLayer ==> Descends(h, PredAt(f, a), PredAt(f, b))
    requires l < f.maxLayer ==> Descends(h, PredAt(f, l), PredAt(f, l + 1))
    ensures Settled(h, data, f, l)
  {
    hide LayerFound;
    forall a, b | l <= a < b <= f.maxLayer ensures Descends(h, PredAt(f, a), PredAt(f, b)) {
      if a == l && b > l + 1 {
        assert Descends(h, PredAt(f, l + 1), PredAt(f, b));
        DescendsChain(h, PredAt(f, l), PredAt(f, l + 1), PredAt(f, b));
      }
    }
  }

  lemma DescendsChain(h: Heap, a: Id, b: Id, c: Id)
    requires Descends(h, a, b) && Descends(h, b, c)
    ensures Descends(h, a, c)
  {}

  lemma SettledDomain(h: Heap, data: int, f: Find, from: nat)
    requires Settled(h, data, f, from)
    ensures forall l :: from <= l <= f.maxLayer ==> l in f.preds && l in f.succs
  {
    forall l | from <= l <= f.maxLayer ensures l in f.preds && l in f.succs {
      assert LayerFound(h, data, f, l);
    }
  }

  lemma SettleLayer(h: Heap, head: Id, th: Thread, next: Option<Id>)
    requires HeapOK(h, head) && th.Busy? && Searching(h, th) && th.pred in h && th.layer < |h[th.pred].skip|
    requires next == h[th.pred].skip[th.layer] && !(next.Some? && next.value in h && h[next.value].key < th.data)
    ensures var f := Settle(th, next, next.Some? && next.value in h && h[next.value].key == th.data);
            f.maxLayer == th.f.maxLayer && Settled(h, th.data, f, th.layer) && f.preds[th.layer] == th.pred
  {
    LinkAt(h, head, th.pred, th.layer);
    hide HeapOK;
    SettledDomain(h, th.data, th.f, th.layer + 1);
    var f := Settle(th, next, next.Some? && next.value in h && h[next.value].key == th.data);
    assert FoundOK(h, th.data, f);
    SettledUp(h, th.data, th.f, f, th.layer + 1);
    assert LayerFound(h, th.data, f, th.layer);
    SettledDown(h, th.data, f, th.layer);
  }

  lemma SearchInv(s: State, t: Tid, s': State)
    requires Inv(s) && DoSearch(s, t, s')
    ensures Inv(s')
  {
    var th := s.threads[t];
    MyBusy(s, t);
    assert HeapOK(s.heap, s.head);
    hide Inv, VictimOK, HeapOK, Settled, Searching, BusyOK, Owns, AfterSearch;
    SearchPart(s.heap, s.head, t, th);
    var next := s.heap[th.pred].skip[th.layer];
    if next.Some? && next.value in s.heap && s.heap[next.value].key < th.data {
      MoveRight(s.heap, s.head, th, next.value);
      StillSearching(s.heap, s.head, t, th, th.(pred := next.value));
      ReadOnly(s, t, th.(pred := next.value), s');
    } else {
      SettleLayer(s.heap, s.head, th, next);
      var f := Settle(th, next, next.Some? && next.value in s.heap && s.heap[next.value].key == th.data);
      if th.layer > 0 {
        var th' := th.(f := f, layer := th.layer - 1);
        NextLayer(s.heap, th, f);
        StillSearching(s.heap, s.head, t, th, th');
        ReadOnly(s, t, th', s');
      } else {
        AfterSearchInv(s, t, th.(f := f), s');
      }
    }
  }

  lemma SearchPart(h: Heap, head: Id, t: Tid, th: Thread)
    requires th.Busy? && th.pc == Search && BusyOK(h, head, t, th)
    ensures Searching(h, th) && th.layer <= th.f.maxLayer && th.pred in h
  {}

  lemma StillSearching(h: Heap, head: Id, t: Tid, th: Thread, th': Thread)
    requires th.Busy? && th.pc == Search && BusyOK(h, head, t, th)
    requires th'.Busy? && th' == th.(pred := th'.pred, f := th'.f, layer := th'.layer) && Searching(h, th') &&
        th'.f.maxLayer == th.f.maxLayer
    ensures BusyOK(h, head, t, th')
  {
    hide Searching, Settled;
  }

  lemma NextLayer(h: Heap, th: Thread, f: Find)
    requires th.Busy? && Searching(h, th) && th.layer > 0 && f.maxLayer == th.f.maxLayer
    requires Settled(h, th.data, f, th.layer) && th.layer in f.preds && f.preds[th.layer] == th.pred
    ensures Searching(h, th.(f := f, layer := th.layer - 1))
  {
    hide Settled;
  }

  lemma AfterSearchInv(s: State, t: Tid, th: Thread, s': State)
    requires Inv(s) && t in s.threads && th.Busy? && At(s, t, Search) && th == s.threads[t].(f := th.f)
    requires th.f.maxLayer == s.threads[t].f.maxLayer && th.layer == 0 && Settled(s.heap, th.data, th.f, 0) &&
        AfterSearch(s, t, th, s')
    ensures Inv(s')
  {
    MyBusy(s, t);
    hide Inv, Settled, BusyOK, Owns, VictimOK;
    if th.adding && th.f.foundLayer < 0 {
      var h :| 1 <= h <= th.f.maxLayer + 1 && Stay(s, t, th.(pc := Acquire, layer := 0, height := h), s');
      StartChange(s.heap, s.head, t, s.threads[t], th.f, h);
      ReadOnly(s, t, th.(pc := Acquire, layer := 0, height := h), s');
    } else if th.adding {
      StartSee(s.heap, s.head, t, s.threads[t], th.f);
      ReadOnly(s, t, th.(pc := SeeMarked), s');
    } else if th.victim.Some? {
      StartChange(s.heap, s.head, t, s.threads[t], th.f, th.height);
      ReadOnly(s, t, th.(pc := Acquire, layer := 0), s');
    } else if th.f.foundLayer >= 0 {
      StartSee(s.heap, s.head, t, s.threads[t], th.f);
      ReadOnly(s, t, th.(pc := OkLinked), s');
    } else {
      GiveUp(s, t, s');
    }
  }

  lemma StartChange(h: Heap, head: Id, t: Tid, th: Thread, f: Find, height: nat)
    requires th.Busy? && th.pc == Search && BusyOK(h, head, t, th) && f.maxLayer == th.f.maxLayer &&
        Settled(h, th.data, f, 0)
    requires if th.adding then f.foundLayer < 0 && 1 <= height <= f.maxLayer + 1
             else th.victim.Some? && height == th.height
    ensures BusyOK(h, head, t, th.(f := f, pc := Acquire, layer := 0, height := height))
  {
    SettledFound(h, th.data, f);
    hide Settled, Searching;
  }

  lemma StartSee(h: Heap, head: Id, t: Tid, th: Thread, f: Find)
    requires th.Busy? && th.pc == Search && BusyOK(h, head, t, th) && f.maxLayer == th.f.maxLayer &&
        Settled(h, th.data, f, 0)
    requires f.foundLayer >= 0 && th.victim == None
    ensures BusyOK(h, head, t, th.(f := f, pc := if th.adding then SeeMarked else OkLinked))
  {
    SettledFound(h, th.data, f);
    hide Settled, Searching;
  }

  lemma SettledFound(h: Heap, data: int, f: Find)
    requires Settled(h, data, f, 0)
    ensures FoundOK(h, data, f) && f.maxLayer in f.preds
  {
    assert LayerFound(h, data, f, f.maxLayer);
  }

  lemma SeeInv(s: State, t: Tid, s': State)
    requires Inv(s) && (DoSeeMarked(s, t, s') || DoSeeLinked(s, t, s'))
    ensures Inv(s')
  {
    var th := s.threads[t];
    MyBusy(s, t);
    hide Inv, BusyOK, Owns;
    SeeLocal(s.heap, s.head, t, th);
    if s'.threads[t].Idle? { GiveUp(s, t, s'); } else { ReadOnly(s, t, s'.threads[t], s'); }
  }

  lemma SeeLocal(h: Heap, head: Id, t: Tid, th: Thread)
    requires th.Busy? && (th.pc == SeeMarked || th.pc == SeeLinked) && BusyOK(h, head, t, th)
    ensures th.victim == None && BusyOK(h, head, t, th.(pc := SeeLinked)) && BusyOK(h, head, t, Restart(th))
  {
    hide Settled;
  }

  lemma OkInv(s: State, t: Tid, s': State)
    requires Inv(s) && (DoOkLinked(s, t, s') || DoOkMarked(s, t, s'))
    ensures Inv(s')
  {
    var th := s.threads[t];
    MyBusy(s, t);
    hide Inv, BusyOK, Owns;
    OkLocal(s.heap, s.head, t, th);
    if s'.threads[t].Idle? { GiveUp(s, t, s'); } else { ReadOnly(s, t, s'.threads[t], s'); }
  }

  lemma OkLocal(h: Heap, head: Id, t: Tid, th: Thread)
    requires th.Busy? && (th.pc == OkLinked || th.pc == OkMarked) && BusyOK(h, head, t, th)
    ensures th.victim == None
    ensures (th.pc == OkLinked && th.f.found.Some? && th.f.found.value in h && h[th.f.found.value].linked
             && h[th.f.found.value].height - 1 == th.f.foundLayer) ==> BusyOK(h, head, t, th.(pc := OkMarked))
    ensures th.pc == OkMarked ==> BusyOK(h, head, t, th.(pc := LockVictim))
  {
    hide LayerFound, Descends;
  }

  lemma GrowMaybeInv(s: State, t: Tid, s': State)
    requires Inv(s) && DoGrowMaybe(s, t, s')
    ensures Inv(s')
  {
    hide Inv, BusyOK, Owns, Stay, Local, Held;
    MyBusy(s, t);
    AddingHasNoVictim(s.heap, s.head, t, s.threads[t]);
    if Stay(s, t, Idle, s') {
      GiveUp(s, t, s');
    } else {
      var th' := Growing(GRead, s.heap[s.head].height + 1, 0, 0);
      StartGrowing(s.heap, s.head, t, s.threads[t], th');
      StayIs(s, t, th', s');
      ReadStep(s, t, th', s');
    }
  }

  lemma StayIs(s: State, t: Tid, th: Thread, s': State)
    requires Stay(s, t, th, s')
    ensures s' == s.(threads := s.threads[t := th], size := s'.size)
  {}

  lemma StartGrowing(h: Heap, head: Id, t: Tid, th: Thread, th': Thread)
    requires th.Busy? && LockedLayers(th) == 0 && th.victim == None && th'.Growing? && th'.gpc == GRead
    ensures Held(th) == {} == Held(th') && Local(h, head, t, th')
  {}

  lemma AddingHasNoVictim(h: Heap, head: Id, t: Tid, th: Thread)
    requires th.Busy? && th.pc == GrowMaybe && BusyOK(h, head, t, th)
    ensures th.victim == None
  {}

  lemma GReadInv(s: State, t: Tid, s': State)
    requires Inv(s) && DoGRead(s, t, s')
    ensures Inv(s')
  {
    MyLocal(s, t);
    assert HeadOK(s.heap, s.head);
    hide Inv;
    ReadStep(s, t, s'.threads[t], s');
  }

  lemma CountInv(s: State, t: Tid, s': State)
    requires Inv(s) && DoCount(s, t, s')
    ensures Inv(s')
  {
    var th := s.threads[t];
    MyBusy(s, t);
    hide Inv, BusyOK, Owns;
    var th' := th.(pc := Unlock);
    CountLocal(s.heap, s.head, t, th);
    assert Held(th') == Held(th);
    assert Owns(s.heap, t, th') by { OwnsSame(s.heap, t, th, th'); }
    ReadStep(s, t, th', s');
  }

  lemma OwnsSame(h: Heap, t: Tid, th: Thread, th': Thread)
    requires Owns(h, t, th) && Held(th') == Held(th)
    ensures Owns(h, t, th')
  {}

  lemma CountLocal(h: Heap, head: Id, t: Tid, th: Thread)
    requires th.Busy? && th.pc == Count && BusyOK(h, head, t, th)
    ensures BusyOK(h, head, t, th.(pc := Unlock))
  {
    hide Settled;
    var th' := th.(pc := Unlock);
    forall j | 0 <= j < ValidLayers(th') ensures PredValid(h, head, th', j) {
      assert PredValid(h, head, th, j);
    }
  }

  // ---------------------------------------------------------------- locking

  ghost predicate SameButLock(a: Node, b: Node) {
    b == a.(lock := b.lock)
  }

  lemma RelockKeeps(h: Heap, g: Heap, head: Id)
    requires HeapOK(h, head) && g.Keys == h.Keys && forall id :: id in h ==> SameButLock(h[id], g[id])
    ensures HeapOK(g, head)
  {
    hide LayersOK, LinksOK, OneOfAKey, HeadOK;
    assert NodesOK(g) by { RelockNodes(h, g); }
    forall id | id in h ensures SameShape(h[id], g[id]) { assert SameButLock(h[id], g[id]); }
    ShapeKept(h, g, head);
  }

  lemma RelockNodes(h: Heap, g: Heap)
    requires NodesOK(h) && g.Keys == h.Keys && forall id :: id in h ==> SameButLock(h[id], g[id])
    ensures NodesOK(g)
  {
    forall id | id in g ensures NodeOK(g[id]) { assert NodeOK(h[id]) && SameButLock(h[id], g[id]); }
  }

  lemma RelockLog(h: Heap, g: Heap, log: seq<Event>)
    requires LogOK(h, log) && g.Keys == h.Keys && forall id :: id in h ==> SameButLock(h[id], g[id])
    ensures LogOK(g, log)
  {
    forall k ensures HasLive(g, k) <==> HasLive(h, k) {
      if HasLive(g, k) { var id :| id in g && Live(g[id]) && g[id].key == k; assert SameButLock(h[id], g[id]);
          assert Live(h[id]); }
      if HasLive(h, k) { var id :| id in h && Live(h[id]) && h[id].key == k; assert SameButLock(h[id], g[id]);
          assert Live(g[id]); }
    }
  }

  /** Only locks of thread t change, from free or back to free. */
  ghost predicate RelocksOnly(h: Heap, g: Heap, t: Tid) {
    g.Keys == h.Keys && forall id :: id in h ==> SameButLock(h[id], g[id]) && OwnLock(h[id].lock, g[id].lock, t)
  }

  predicate OwnLock(a: Option<Tid>, b: Option<Tid>, t: Tid) {
    b == a || (a == None && b == Some(t)) || (a == Some(t) && b == None)
  }

  lemma RelockRely(h: Heap, g: Heap, head: Id, t: Tid, u: Tid)
    requires HeapOK(h, head) && RelocksOnly(h, g, t) && u != t
    ensures Rely(h, head, g, head, u)
  {
    hide LayersOK, LinksOK, OneOfAKey;
    forall id | id in h ensures id in g && RelyNode(h[id], g[id], u) {
      assert NodeOK(h[id]) && SameButLock(h[id], g[id]) && OwnLock(h[id].lock, g[id].lock, t);
    }
  }

  /** A step that takes or drops locks of its own thread and otherwise only reads. */
  lemma RelockStep(s: State, t: Tid, th: Thread, g: Heap, s': State)
    requires Inv(s) && t in s.threads && Write(s, t, th, g, s') && RelocksOnly(s.heap, g, t)
    requires forall id :: id in g && g[id].lock == Some(t) ==> id in Held(th)
    requires !(s.threads[t].Growing? && s.threads[t].gpc == GMark)
    requires Local(g, s.head, t, th)
    ensures Inv(s')
  {
    hide Local, HeapOK, LogOK, Rely, Held;
    assert forall id :: id in s.heap ==> SameButLock(s.heap[id], g[id]);
    RelockKeeps(s.heap, g, s.head);
    RelockLog(s.heap, g, s.log);
    RelockLocks(s.heap, g, s.threads, t, th);
    RelockHeads(s.heap, g, s.head, s.threads, t, th);
    forall u | u != t ensures Rely(s.heap, s.head, g, s.head, u) { RelockRely(s.heap, g, s.head, t, u); }
    hide RelocksOnly, LocksOK, HeadsOK;
    Combine(s, t, s');
  }

  lemma RelockLocks(h: Heap, g: Heap, threads: map<Tid, Thread>, t: Tid, th: Thread)
    requires LocksOK(h, threads) && RelocksOnly(h, g, t)
    requires forall id :: id in g && g[id].lock == Some(t) ==> id in Held(th)
    ensures LocksOK(g, threads[t := th])
  {
    hide Held;
    forall id | id in g && g[id].lock.Some?
      ensures g[id].lock.value in threads[t := th] && id in Held(threads[t := th][g[id].lock.value])
    {
      assert OwnLock(h[id].lock, g[id].lock, t);
      if g[id].lock != Some(t) { assert h[id].lock == g[id].lock; }
    }
  }

  lemma RelockHeads(h: Heap, g: Heap, head: Id, threads: map<Tid, Thread>, t: Tid, th: Thread)
    requires HeadsOK(h, head, threads) && RelocksOnly(h, g, t) && t in threads &&
        !(threads[t].Growing? && threads[t].gpc == GMark)
    ensures HeadsOK(g, head, threads[t := th])
  {
    forall id | id in g && g[id].isHead && g[id].reached > 0 && id != head
      ensures g[id].marked || BeingReplaced(g[id], id, threads[t := th])
    {
      assert SameButLock(h[id], g[id]) && OwnLock(h[id].lock, g[id].lock, t);
    }
  }

  lemma LockOne(h: Heap, id: Id, t: Tid)
    requires id in h && h[id].lock == None
    ensures RelocksOnly(h, Locked(h, id, t), t)
  {}

  lemma OwnLocks(s: State, t: Tid, id: Id)
    requires Inv(s) && id in s.heap && s.heap[id].lock == Some(t)
    ensures t in s.threads && id in Held(s.threads[t])
  {
    hide Held;
  }

  lemma LockVictimInv(s: State, t: Tid, s': State)
    requires Inv(s) && DoLockVictim(s, t, s')
    ensures Inv(s')
  {
    var th := s.threads[t];
    MyBusy(s, t);
    var v := th.f.found.value;
    var th' := th.(pc := MarkVictim, victim := Some(v), height := s.heap[v].height);
    var g := Locked(s.heap, v, t);
    forall id | id in g && g[id].lock == Some(t) ensures id in Held(th') {
      if id != v { OwnLocks(s, t, id); }
    }
    assert HeapOK(s.heap, s.head);
    hide Inv;
    LockVictimLocal(s.heap, s.head, t, th);
    LockOne(s.heap, v, t);
    hide BusyOK, HeapOK;
    RelockStep(s, t, th', g, s');
  }

  lemma LockVictimLocal(h: Heap, head: Id, t: Tid, th: Thread)
    requires th.Busy? && th.pc == LockVictim && BusyOK(h, head, t, th) && Owns(h, t, th) && HeapOK(h, head)
    requires th.f.found.Some? && th.f.found.value in h && h[th.f.found.value].lock == None
    ensures th.victim == None
    ensures Local(Locked(h, th.f.found.value, t), head, t,
                  th.(pc := MarkVictim, victim := th.f.found, height := h[th.f.found.value].height))
  {
    var v := th.f.found.value;
    var g := Locked(h, v, t);
    var th' := th.(pc := MarkVictim, victim := th.f.found, height := h[v].height);
    LockOne(h, v, t);
    RelockRely(h, g, head, t, t + 1);
    assert NodeOK(h[v]);
    hide HeapOK;
    SettledStable(h, head, g, head, t + 1, th.data, th.f, 0);
    assert Held(th') == {v};
    hide Settled;
  }

  /** Nothing a thread knows, apart from which locks it holds, depends on locks. */
  lemma BusyRelock(h: Heap, g: Heap, head: Id, t: Tid, th: Thread)
    requires HeapOK(h, head) && RelocksOnly(h, g, t) && th.Busy? && BusyOK(h, head, t, th)
    ensures BusyOK(g, head, t, th)
  {
    RelockRely(h, g, head, t, t + 1);
    assert head in h && SameButLock(h[head], g[head]);
    hide HeapOK, Rely, ChangingOK, VictimOK, Searching, LayerFound, Descends;
    if th.pc == Search { SearchingStable(h, head, g, head, t + 1, th); }
    if PastSearch(th.pc) {
      SettledStable(h, head, g, head, t + 1, th.data, th.f, 0);
      if th.f.found.Some? { FoundStable(h, head, g, head, t + 1, th.data, th.f); }
    }
    if th.victim.Some? { VictimRelock(h, g, t, th); }
    if Changing(th.pc) { ChangingRelock(h, g, head, t, th); }
  }

  lemma VictimRelock(h: Heap, g: Heap, t: Tid, th: Thread)
    requires RelocksOnly(h, g, t) && th.Busy? && th.victim.Some? && VictimOK(h, th)
    ensures VictimOK(g, th)
  {
    assert SameButLock(h[th.victim.value], g[th.victim.value]);
  }

  lemma ChangingRelock(h: Heap, g: Heap, head: Id, t: Tid, th: Thread)
    requires RelocksOnly(h, g, t) && th.Busy? && ChangingOK(h, head, t, th)
    ensures ChangingOK(g, head, t, th)
  {
    if th.pc == Prepare || th.pc == Link || th.pc == Announce { assert SameButLock(h[th.node], g[th.node]); }
    hide NodeMine;
    forall j | 0 <= j < ValidLayers(th) ensures PredValid(g, head, th, j) {
      assert PredValid(h, head, th, j);
      assert SameButLock(h[th.f.preds[j]], g[th.f.preds[j]]);
    }
  }

  lemma AcquireInv(s: State, t: Tid, s': State)
    requires Inv(s) && DoAcquire(s, t, s')
    ensures Inv(s')
  {
    var th := s.threads[t];
    var p := th.f.preds[th.layer];
    var th' := th.(pc := Validate);
    MyBusy(s, t);
    assert HeapOK(s.heap, s.head);
    if NeedsLock(th) {
      var g := Locked(s.heap, p, t);
      forall id | id in g && g[id].lock == Some(t) ensures id in Held(th') {
        if id != p { OwnLocks(s, t, id); AcquireHeld(th); } else { AcquireHeld(th); }
      }
      hide Inv, Held, BusyOK, HeapOK, Owns;
      AcquireHeld(th);
      LockOne(s.heap, p, t);
      AcquireLocal(s.heap, s.head, t, th);
      BusyRelock(s.heap, g, s.head, t, th');
      OwnsLocked(s.heap, g, t, th, th', p);
      hide RelocksOnly;
      RelockStep(s, t, th', g, s');
    } else {
      hide Inv, Held, BusyOK, HeapOK, Owns;
      AcquireHeld(th);
      AcquireLocal(s.heap, s.head, t, th);
      OwnsSame(s.heap, t, th, th');
      ReadStep(s, t, th', s');
    }
  }

  lemma AcquireHeld(th: Thread)
    requires th.Busy? && th.pc == Acquire && th.layer in th.f.preds
    ensures Held(th.(pc := Validate)) == Held(th) + {th.f.preds[th.layer]}
    ensures !NeedsLock(th) ==> Held(th.(pc := Validate)) == Held(th)
  {
    var th' := th.(pc := Validate);
    assert Guarded(th') == Guarded(th) + {th.f.preds[th.layer]};
    if !NeedsLock(th) { assert th.f.preds[th.layer] == th.f.preds[th.layer - 1];
        assert th.f.preds[th.layer] in Guarded(th); }
  }

  lemma OwnsLocked(h: Heap, g: Heap, t: Tid, th: Thread, th': Thread, p: Id)
    requires Owns(h, t, th) && p in h && h[p].lock == None && g == Locked(h, p, t) && Held(th') == Held(th) + {p}
    ensures Owns(g, t, th')
  {
    hide Held;
  }

  lemma AcquireLocal(h: Heap, head: Id, t: Tid, th: Thread)
    requires th.Busy? && th.pc == Acquire && BusyOK(h, head, t, th)
    ensures BusyOK(h, head, t, th.(pc := Validate))
  {
    hide Settled;
    var th' := th.(pc := Validate);
    forall j | 0 <= j < ValidLayers(th') ensures PredValid(h, head, th', j) {
      assert PredValid(h, head, th, j);
    }
  }

  // ---------------------------------------------------------------- validating

  /** A predecessor that is unmarked under this thread's lock is linked, and if it is a head it is the head. */
  lemma UnmarkedIsLinked(s: State, t: Tid, p: Id, l: nat)
    requires Inv(s) && At(s, t, Validate) && Seen(s.heap, p, l) && s.heap[p].lock == Some(t) && !s.heap[p].marked
    ensures InLayer(s.heap, s.head, p, l) && l < |s.heap[p].skip|
  {
    assert NodeOK(s.heap[p]);
    assert s.heap[p].isHead && p != s.head ==> BeingReplaced(s.heap[p], p, s.threads);
  }

  /** With the victim still linked, a validated successor can only be the victim. */
  lemma SuccIsVictim(h: Heap, head: Id, th: Thread, j: nat)
    requires HeapOK(h, head) && th.Busy? && th.victim.Some? && th.victim.value in h && LayerFound(h, th.data, th.f, j)
    requires !h[th.victim.value].isHead && h[th.victim.value].key == th.data && j < h[th.victim.value].layers
    requires InLayer(h, head, th.f.preds[j], j) && j < |h[th.f.preds[j]].skip| &&
        h[th.f.preds[j]].skip[j] == th.f.succs[j]
    ensures th.f.succs[j] == th.victim
  {
    hide LinksOK, HeadOK;
    var p, v := th.f.preds[j], th.victim.value;
    assert IsSucc(h, p, j, h[p].skip[j]);
    assert Less(h[p], h[v]);
    assert th.f.succs[j].Some?;
    var x := th.f.succs[j].value;
    assert !Less(h[v], h[x]);
    assert h[x].key == h[v].key;
  }

  lemma GuardHeld(h: Heap, t: Tid, th: Thread, j: nat)
    requires th.Busy? && Owns(h, t, th) && j < LockedLayers(th) && j in th.f.preds
    ensures th.f.preds[j] in h && h[th.f.preds[j]].lock == Some(t)
  {
    assert th.f.preds[j] in Guarded(th);
    assert th.f.preds[j] in Held(th);
  }

  lemma MyHeap(s: State)
    requires Inv(s)
    ensures HeapOK(s.heap, s.head)
  {}

  lemma ValidateInv(s: State, t: Tid, s': State)
    requires Inv(s) && DoValidate(s, t, s')
    ensures Inv(s')
  {
    hide Inv, BusyOK, HeapOK, Owns, Settled, Held, InLayer, LayerFound;
    var th, th' := s.threads[t], s'.threads[t];
    MyBusy(s, t);
    MyHeap(s);
    GuardHeld(s.heap, t, th, th.layer);
    SettledOf(s.heap, s.head, t, th);
    SettledAt(s.heap, th.data, th.f, 0, th.layer);
    PredSeen(s.heap, th.data, th.f, th.layer);
    var p, succ := s.heap[th.f.preds[th.layer]], th.f.succs[th.layer];
    ValidatedHeld(th);
    if th'.pc == Backoff {
      BackoffLocal(s.heap, s.head, t, th);
      OwnsSame(s.heap, t, th, th');
    } else {
      UnmarkedIsLinked(s, t, th.f.preds[th.layer], th.layer);
      ValidatedLocal(s.heap, s.head, t, th);
      OwnsSame(s.heap, t, th, th');
    }
    ReadStep(s, t, th', s');
  }

  lemma PredSeen(h: Heap, data: int, f: Find, l: nat)
    requires LayerFound(h, data, f, l)
    ensures l in f.preds && Seen(h, f.preds[l], l)
  {}

  lemma ValidatedHeld(th: Thread)
    requires th.Busy? && th.pc == Validate && th.layer < th.height
    ensures Held(Validated(th)) == Held(th) == Held(th.(pc := Backoff))
  {
    assert Guarded(Validated(th)) == Guarded(th) == Guarded(th.(pc := Backoff));
  }

  lemma SettledOf(h: Heap, head: Id, t: Tid, th: Thread)
    requires th.Busy? && th.pc == Validate && BusyOK(h, head, t, th)
    ensures Settled(h, th.data, th.f, 0) && th.layer < th.height <= th.f.maxLayer + 1
  {}

  lemma BackoffLocal(h: Heap, head: Id, t: Tid, th: Thread)
    requires th.Busy? && th.pc == Validate && BusyOK(h, head, t, th)
    ensures BusyOK(h, head, t, th.(pc := Backoff))
  {
    hide Settled;
  }

  /** What the next program counter is after a successful validation. */
  function Validated(th: Thread): Thread
    requires th.Busy?
  {
    if th.layer + 1 < th.height then th.(pc := Acquire, layer := th.layer + 1)
    else if th.adding then th.(pc := Create) else th.(pc := Unlink)
  }

  lemma ValidatedLocal(h: Heap, head: Id, t: Tid, th: Thread)
    requires HeapOK(h, head) && th.Busy? && th.pc == Validate && BusyOK(h, head, t, th)
    requires th.layer in th.f.preds && th.layer in th.f.succs && InLayer(h, head, th.f.preds[th.layer], th.layer)
    requires !h[th.f.preds[th.layer]].marked && th.layer < |h[th.f.preds[th.layer]].skip|
    requires h[th.f.preds[th.layer]].skip[th.layer] == th.f.succs[th.layer]
    ensures BusyOK(h, head, t, Validated(th))
  {
    hide HeapOK, Settled, PredValid;
    var th' := Validated(th);
    forall j | 0 <= j < ValidLayers(th') ensures PredValid(h, head, th', j) {
      ValidatedPred(h, head, t, th, j);
    }
  }

  lemma ValidatedPred(h: Heap, head: Id, t: Tid, th: Thread, j: nat)
    requires HeapOK(h, head) && th.Busy? && th.pc == Validate && BusyOK(h, head, t, th) && j <= th.layer
    requires th.layer in th.f.preds && th.layer in th.f.succs && InLayer(h, head, th.f.preds[th.layer], th.layer)
    requires !h[th.f.preds[th.layer]].marked && th.layer < |h[th.f.preds[th.layer]].skip|
    requires h[th.f.preds[th.layer]].skip[th.layer] == th.f.succs[th.layer]
    ensures PredValid(h, head, Validated(th), j)
  {
    var th' := Validated(th);
    assert j < th.layer ==> PredValid(h, head, th, j);
    SettledOf(h, head, t, th);
    SettledAt(h, th.data, th.f, 0, j);
    if th'.pc == Unlink {
      assert VictimOK(h, th);
      hide HeapOK, BusyOK, Settled;
      SuccIsVictim(h, head, th, j);
    }
  }

  // ---------------------------------------------------------------- unlocking

  lemma ReleaseRelocks(h: Heap, ids: set<Id>, t: Tid)
    requires forall id :: id in ids ==> id in h && h[id].lock == Some(t)
    ensures RelocksOnly(h, Released(h, ids), t)
  {}

  /** Guards never include the victim: they are below the key, the victim has the key. */
  lemma VictimUnguarded(h: Heap, head: Id, t: Tid, th: Thread)
    requires th.Busy? && BusyOK(h, head, t, th) && Changing(th.pc) && th.victim.Some?
    ensures th.victim.value !in Guarded(th)
  {
    hide Descends;
    forall j | 0 <= j < LockedLayers(th) && j in th.f.preds ensures th.f.preds[j] != th.victim.value {
      assert LayerFound(h, th.data, th.f, j);
    }
  }

  lemma ReleaseGuards(s: State, t: Tid, th': Thread, s': State)
    requires Inv(s) && t in s.threads && s.threads[t].Busy? && Changing(s.threads[t].pc)
    requires Write(s, t, th', Released(s.heap, Guarded(s.threads[t])), s')
    requires th'.Busy? && LockedLayers(th') == 0 && th'.victim == s.threads[t].victim && BusyOK(s.heap, s.head, t, th')
    ensures Inv(s')
  {
    hide Inv, BusyOK, HeapOK, Guarded;
    var th := s.threads[t];
    var g := Released(s.heap, Guarded(th));
    MyBusy(s, t);
    MyHeap(s);
    OwnsGuards(s.heap, t, th);
    ReleaseRelocks(s.heap, Guarded(th), t);
    BusyRelock(s.heap, g, s.head, t, th');
    if th.victim.Some? { VictimUnguarded(s.heap, s.head, t, th); }
    NoGuards(th');
    forall id | id in g && g[id].lock == Some(t) ensures id in Held(th') {
      OwnLocks(s, t, id);
    }
    RelockStep(s, t, th', g, s');
  }

  lemma NoGuards(th: Thread)
    requires th.Busy? && LockedLayers(th) == 0
    ensures Guarded(th) == {}
  {}

  lemma OwnsGuards(h: Heap, t: Tid, th: Thread)
    requires th.Busy? && Owns(h, t, th)
    ensures forall id :: id in Guarded(th) ==> id in h && h[id].lock == Some(t)
    ensures th.victim.Some? ==> th.victim.value in h && h[th.victim.value].lock == Some(t)
  {
    forall id | id in Guarded(th) ensures id in h && h[id].lock == Some(t) {
      assert id in Held(th);
    }
    if th.victim.Some? { assert th.victim.value in Held(th); }
  }

  lemma BackoffInv(s: State, t: Tid, s': State)
    requires Inv(s) && DoBackoff(s, t, s')
    ensures Inv(s')
  {
    hide Inv, BusyOK, Released, Guarded;
    MyBusy(s, t);
    RestartLocal(s.heap, s.head, t, s.threads[t]);
    ReleaseGuards(s, t, Restart(s.threads[t]), s');
  }

  lemma RestartLocal(h: Heap, head: Id, t: Tid, th: Thread)
    requires th.Busy? && th.pc == Backoff && BusyOK(h, head, t, th)
    ensures BusyOK(h, head, t, Restart(th))
  {
    hide Settled;
  }

  lemma UnlockInv(s: State, t: Tid, s': State)
    requires Inv(s) && DoUnlock(s, t, s')
    ensures Inv(s')
  {
    hide Inv, BusyOK, Released, Guarded;
    var th := s.threads[t];
    MyBusy(s, t);
    UnlockLocal(s.heap, s.head, t, th);
    ReleaseGuards(s, t, th.(pc := if th.adding then GrowMaybe else ReleaseVictim), s');
  }

  lemma UnlockLocal(h: Heap, head: Id, t: Tid, th: Thread)
    requires th.Busy? && th.pc == Unlock && BusyOK(h, head, t, th)
    ensures BusyOK(h, head, t, th.(pc := if th.adding then GrowMaybe else ReleaseVictim))
  {
    hide Settled;
  }

  /** Dropping the only lock of a thread that is done. */
  lemma DropLast(s: State, t: Tid, id: Id, s': State)
    requires Inv(s) && t in s.threads && id in s.heap && Held(s.threads[t]) == {id}
    requires !(s.threads[t].Growing? && s.threads[t].gpc == GMark)
    requires Write(s, t, Idle, s.heap[id := s.heap[id].(lock := None)], s')
    ensures Inv(s')
  {
    hide Inv, Held;
    var g := s.heap[id := s.heap[id].(lock := None)];
    OwnedBy(s, t, id);
    forall i | i in g ensures g[i].lock != Some(t) {
      if i != id && g[i].lock == Some(t) { OwnLocks(s, t, i); }
    }
    IdleLocal(g, s.head, t);
    RelockStep(s, t, Idle, g, s');
  }

  lemma OwnedBy(s: State, t: Tid, id: Id)
    requires Inv(s) && t in s.threads && id in Held(s.threads[t])
    ensures id in s.heap && s.heap[id].lock == Some(t)
  {
    hide Held, HeapOK;
    assert Local(s.heap, s.head, t, s.threads[t]);
  }

  lemma IdleLocal(h: Heap, head: Id, t: Tid)
    ensures Local(h, head, t, Idle)
  {}

  lemma ReleaseVictimInv(s: State, t: Tid, s': State)
    requires Inv(s) && DoReleaseVictim(s, t, s')
    ensures Inv(s')
  {
    hide Inv;
    var th := s.threads[t];
    NoGuards(th);
    DropLast(s, t, th.victim.value, s');
  }

  lemma GReleaseInv(s: State, t: Tid, s': State)
    requires Inv(s) && DoGRelease(s, t, s')
    ensures Inv(s')
  {
    hide Inv;
    DropLast(s, t, s.threads[t].prior, s');
  }

  lemma MyGrowing(s: State, t: Tid)
    requires Inv(s) && t in s.threads && s.threads[t].Growing?
    ensures GrowingOK(s.heap, s.head, t, s.threads[t]) && Owns(s.heap, t, s.threads[t])
  {
    hide HeapOK, GrowingOK, LocksOK, HeadsOK, LogOK;
    MyLocal(s, t);
  }

  lemma GLockInv(s: State, t: Tid, s': State)
    requires Inv(s) && DoGLock(s, t, s')
    ensures Inv(s')
  {
    hide Inv, HeapOK;
    var th := s.threads[t];
    var g := Locked(s.heap, th.prior, t);
    MyGrowing(s, t);
    MyHeap(s);
    LockOne(s.heap, th.prior, t);
    forall id | id in g && g[id].lock == Some(t) ensures id in Held(th.(gpc := GCopy)) {
      if id != th.prior { OwnLocks(s, t, id); }
    }
    RelockStep(s, t, th.(gpc := GCopy), g, s');
  }
}
