/** Which nodes a search can get to. A link that was written while its node was in a layer stays as it was when the
    node leaves the layer, so whoever starts at the head never gets to a node that had left before. */
module LazyReach {
  import opened Options
  import opened LazyHeap
  import opened LazySkipList
  import opened LazyInvariant
  import opened LazyProofs
  import opened LazyWrites
  import opened LazyTheorems

  /** A run in which the list may also stand still while something else happens. */
  ghost predicate IsPaced(run: seq<State>) {
    |run| > 0 && Start(run[0]) && forall i :: 0 < i < |run| ==> run[i] == run[i - 1] || Next(run[i - 1], run[i])
  }

  lemma {:induction false} PacedInv(run: seq<State>, i: nat)
    requires IsPaced(run) && i < |run|
    ensures Inv(run[i])
  {
    hide Inv, Start, Step;
    if i == 0 {
      StartInv(run[0]);
    } else {
      PacedInv(run, i - 1);
      if run[i] != run[i - 1] {
        assert Next(run[i - 1], run[i]);
        var t :| Step(run[i - 1], t, run[i]);
        StepInv(run[i - 1], t, run[i]);
      }
    }
  }

  // ---------------------------------------------------------------- what a step does to a node

  /** Identity stays, marks and links stay, an unmarked node leaves no layer and a marked one joins none. */
  predicate NodeEvolves(a: Node, b: Node) {
    && b.key == a.key && b.isHead == a.isHead && b.height == a.height && |b.skip| == |a.skip|
    && a.reached <= b.reached && (a.linked ==> b.linked) && (a.marked ==> b.marked)
    && (!a.marked ==> a.layers <= b.layers) && (a.marked ==> b.layers <= a.layers)
    && (!a.linked && b.linked ==> b.marked == a.marked) && (!a.marked && b.marked ==> b.layers == a.layers)
  }

  /** Off a layer that it had joined, a node's link is what it was. */
  ghost predicate Frozen(h: Heap, g: Heap, head': Id, id: Id, l: nat)
    requires id in h && id in g
  {
    (l < h[id].reached && l < |h[id].skip| && l < |g[id].skip| && !InLayer(g, head', id, l)) ==>
      g[id].skip[l] == h[id].skip[l]
  }

  ghost predicate EvolvesAt(h: Heap, g: Heap, head': Id, id: Id)
    requires id in h
  {
    id in g && NodeEvolves(h[id], g[id]) && forall l: nat :: Frozen(h, g, head', id, l)
  }

  ghost predicate Evolves(h: Heap, head: Id, g: Heap, head': Id) {
    && (forall id :: id in h ==> EvolvesAt(h, g, head', id))
    && (head' != head ==> head' in h && h[head'].reached == 0)
  }

  /** Nodes apart from their lock. */
  predicate SameButLock(a: Node, b: Node) {
    b == a.(lock := b.lock)
  }

  lemma SameEvolves(h: Heap, head: Id, g: Heap)
    requires NodesOK(h) && forall id :: id in h ==> id in g && SameButLock(h[id], g[id])
    ensures Evolves(h, head, g, head)
  {
    forall id | id in h ensures EvolvesAt(h, g, head, id) {
      assert SameButLock(h[id], g[id]) && NodeOK(h[id]);
    }
  }

  /** One node changes, and if it changes links then not on a layer it had joined and left. */
  lemma OneEvolves(h: Heap, head: Id, g: Heap, head': Id, n: Id)
    requires NodesOK(h) && n in h && n in g && (forall id :: id in h && id != n ==> id in g && g[id] == h[id])
    requires NodeEvolves(h[n], g[n]) && (forall l: nat :: Frozen(h, g, head', n, l))
    requires head' == head || (head' in h && h[head'].reached == 0)
    ensures Evolves(h, head, g, head')
  {
    forall id | id in h ensures EvolvesAt(h, g, head', id) {
      assert NodeOK(h[id]);
    }
  }

  lemma StayEvolves(s: State, t: Tid, s': State)
    requires Inv(s) && s'.heap == s.heap && s'.head == s.head
    ensures Evolves(s.heap, s.head, s'.heap, s'.head)
  {
    MyHeap(s);
    hide Inv;
    SameEvolves(s.heap, s.head, s'.heap);
  }

  lemma MyNodes(s: State)
    requires Inv(s)
    ensures NodesOK(s.heap)
  {}

  lemma LockEvolves(s: State, t: Tid, s': State)
    requires Inv(s) && (DoLockVictim(s, t, s') || DoAcquire(s, t, s') || DoReleaseVictim(s, t, s'))
    ensures Evolves(s.heap, s.head, s'.heap, s'.head)
  {
    hide Inv, Evolves, NodesOK;
    MyNodes(s);
    SameEvolves(s.heap, s.head, s'.heap);
  }

  lemma HeadLockEvolves(s: State, t: Tid, s': State)
    requires Inv(s) && (DoGLock(s, t, s') || DoGRelease(s, t, s'))
    ensures Evolves(s.heap, s.head, s'.heap, s'.head)
  {
    hide Inv, Evolves, NodesOK;
    MyNodes(s);
    SameEvolves(s.heap, s.head, s'.heap);
  }

  lemma ReleaseEvolves(s: State, t: Tid, s': State)
    requires Inv(s) && (DoBackoff(s, t, s') || DoUnlock(s, t, s'))
    ensures Evolves(s.heap, s.head, s'.heap, s'.head)
  {
    hide Inv, Evolves, NodesOK, Guarded;
    MyNodes(s);
    SameEvolves(s.heap, s.head, s'.heap);
  }

  lemma MarkEvolves(s: State, t: Tid, s': State)
    requires Inv(s) && (DoMarkVictim(s, t, s') || DoGMark(s, t, s'))
    ensures Evolves(s.heap, s.head, s'.heap, s'.head)
  {
    MyHeap(s);
    if s.threads[t].Busy? { MyBusy(s, t); } else { MyGrowing(s, t); }
    hide Inv, Evolves, InLayer;
    var n := if s.threads[t].Busy? then s.threads[t].victim.value else s.threads[t].prior;
    assert NodeOK(s.heap[n]);
    if s.heap[n].marked { SameEvolves(s.heap, s.head, s'.heap); }
    else { OneEvolves(s.heap, s.head, s'.heap, s.head, n); }
  }

  lemma NewEvolves(s: State, t: Tid, s': State)
    requires Inv(s) && (DoCreate(s, t, s') || DoGCopy(s, t, s'))
    ensures Evolves(s.heap, s.head, s'.heap, s'.head)
  {
    MyHeap(s);
    hide Inv, Evolves;
    SameEvolves(s.heap, s.head, s'.heap);
  }

  lemma PrepareEvolves(s: State, t: Tid, s': State)
    requires Inv(s) && DoPrepare(s, t, s')
    ensures Evolves(s.heap, s.head, s'.heap, s'.head)
  {
    MyHeap(s);
    MyBusy(s, t);
    hide Inv, Evolves, InLayer, Settled;
    assert NodeMine(s.heap, t, s.threads[t]);
    OneEvolves(s.heap, s.head, s'.heap, s.head, s.threads[t].node);
  }

  lemma AnnounceEvolves(s: State, t: Tid, s': State)
    requires Inv(s) && DoAnnounce(s, t, s')
    ensures Evolves(s.heap, s.head, s'.heap, s'.head)
  {
    MyHeap(s);
    MyBusy(s, t);
    hide Inv, Evolves, InLayer, Settled;
    assert NodeMine(s.heap, t, s.threads[t]);
    OneEvolves(s.heap, s.head, s'.heap, s.head, s.threads[t].node);
  }

  lemma LinkEvolves(s: State, t: Tid, s': State)
    requires Inv(s) && DoLink(s, t, s')
    ensures Evolves(s.heap, s.head, s'.heap, s'.head)
  {
    MyHeap(s);
    MyBusy(s, t);
    var th := s.threads[t];
    LinkReady(s.heap, s.head, t, th);
    hide Inv, BusyOK, LayersOK, LinksOK, OneOfAKey;
    LinkedEvolves(s.heap, s.head, th.f.preds[th.layer], th.node, th.layer);
  }

  lemma LinkedEvolves(h: Heap, head: Id, pred: Id, node: Id, l: nat)
    requires NodesOK(h) && CanLink(h, head, pred, node, l) && pred != node
    ensures Evolves(h, head, LinkedHeap(h, pred, node, l), head)
  {
    var g := LinkedHeap(h, pred, node, l);
    forall id | id in h ensures EvolvesAt(h, g, head, id) {
      assert NodeOK(h[id]);
      forall k: nat ensures Frozen(h, g, head, id, k) {}
    }
  }

  lemma UnlinkEvolves(s: State, t: Tid, s': State)
    requires Inv(s) && DoUnlink(s, t, s')
    ensures Evolves(s.heap, s.head, s'.heap, s'.head)
  {
    MyHeap(s);
    MyBusy(s, t);
    var th := s.threads[t];
    UnlinkReady(s.heap, s.head, t, th);
    hide Inv, BusyOK, LayersOK, LinksOK, OneOfAKey;
    UnlinkedEvolves(s.heap, s.head, th.f.preds[th.layer], th.victim.value, th.layer);
  }

  lemma UnlinkedEvolves(h: Heap, head: Id, pred: Id, victim: Id, l: nat)
    requires NodesOK(h) && CanUnlink(h, head, pred, victim, l) && pred != victim
    ensures Evolves(h, head, UnlinkedHeap(h, pred, victim, l), head)
  {
    var g := UnlinkedHeap(h, pred, victim, l);
    forall id | id in h ensures EvolvesAt(h, g, head, id) {
      assert NodeOK(h[id]);
      forall k: nat ensures Frozen(h, g, head, id, k) {}
    }
  }

  lemma SwapEvolves(s: State, t: Tid, s': State)
    requires Inv(s) && DoGCas(s, t, s')
    ensures Evolves(s.heap, s.head, s'.heap, s'.head)
  {
    MyHeap(s);
    MyGrowing(s, t);
    var th := s.threads[t];
    if s.head == th.prior {
      CasFacts(s.heap, s.head, t, th);
      hide Inv, LayersOK, LinksOK, OneOfAKey, Evolves;
      assert NodeOK(s.heap[th.taller]);
      OneEvolves(s.heap, s.head, s'.heap, s'.head, th.taller);
    } else {
      StayEvolves(s, t, s');
    }
  }

  /** Every step of every thread. */
  lemma StepEvolves(s: State, t: Tid, s': State)
    requires Inv(s) && Step(s, t, s')
    ensures Evolves(s.heap, s.head, s'.heap, s'.head)
  {
    hide Inv, Evolves, DoLockVictim, DoAcquire, DoReleaseVictim, DoGLock, DoGRelease, DoBackoff, DoUnlock,
        DoMarkVictim, DoGMark,
      DoCreate, DoGCopy, DoPrepare, DoAnnounce, DoLink, DoUnlink, DoGCas;
    if DoLockVictim(s, t, s') || DoAcquire(s, t, s') || DoReleaseVictim(s, t, s') { LockEvolves(s, t, s'); }
    else if DoGLock(s, t, s') || DoGRelease(s, t, s') { HeadLockEvolves(s, t, s'); }
    else if DoBackoff(s, t, s') || DoUnlock(s, t, s') { ReleaseEvolves(s, t, s'); }
    else if DoMarkVictim(s, t, s') || DoGMark(s, t, s') { MarkEvolves(s, t, s'); }
    else if DoCreate(s, t, s') || DoGCopy(s, t, s') { NewEvolves(s, t, s'); }
    else if DoPrepare(s, t, s') { PrepareEvolves(s, t, s'); }
    else if DoAnnounce(s, t, s') { AnnounceEvolves(s, t, s'); }
    else if DoLink(s, t, s') { LinkEvolves(s, t, s'); }
    else if DoUnlink(s, t, s') { UnlinkEvolves(s, t, s'); }
    else if DoGCas(s, t, s') { SwapEvolves(s, t, s'); }
    else { ReadsOnly(s, t, s'); StayEvolves(s, t, s'); }
  }

  lemma ReadsOnly(s: State, t: Tid, s': State)
    requires Begin(s, t, s') || DoReadMax(s, t, s') || DoReadHead(s, t, s') || DoSearch(s, t, s') ||
        DoSeeMarked(s, t, s')
      || DoSeeLinked(s, t, s') || DoOkLinked(s, t, s') || DoOkMarked(s, t, s') || DoValidate(s, t, s') ||
          DoCount(s, t, s')
      || DoGrowMaybe(s, t, s') || DoGRead(s, t, s')
    ensures s'.heap == s.heap && s'.head == s.head
  {
    hide Settle;
  }

  // ---------------------------------------------------------------- nodes that were in a layer since some moment

  ghost predicate InLayerAt(s: State, id: Id, l: nat) {
    InLayer(s.heap, s.head, id, l)
  }

  /** The node was in layer l at some moment from i to j. */
  ghost predicate Since(run: seq<State>, i: nat, j: nat, id: Id, l: nat) {
    exists u :: i <= u <= j && u < |run| && InLayerAt(run[u], id, l)
  }

  lemma SinceGrows(run: seq<State>, i: nat, j: nat, k: nat, id: Id, l: nat)
    requires Since(run, i, j, id, l) && j <= k
    ensures Since(run, i, k, id, l)
  {
    var u :| i <= u <= j && u < |run| && InLayerAt(run[u], id, l);
  }

  lemma PacedEvolves(run: seq<State>, i: nat)
    requires IsPaced(run) && 0 < i < |run|
    ensures Evolves(run[i - 1].heap, run[i - 1].head, run[i].heap, run[i].head)
  {
    hide Inv, Start, Step, Evolves;
    PacedInv(run, i - 1);
    if run[i] == run[i - 1] {
      StayEvolves(run[i - 1], 0, run[i]);
    } else {
      assert Next(run[i - 1], run[i]);
      var t :| Step(run[i - 1], t, run[i]);
      StepEvolves(run[i - 1], t, run[i]);
    }
  }

  lemma {:induction false} PacedNode(run: seq<State>, i: nat, j: nat, id: Id)
    requires IsPaced(run) && i <= j < |run| && id in run[i].heap
    ensures id in run[j].heap
    ensures var a, b := run[i].heap[id], run[j].heap[id];
      && b.key == a.key && b.isHead == a.isHead && b.height == a.height && |b.skip| == |a.skip|
      && a.reached <= b.reached && (a.linked ==> b.linked) && (a.marked ==> b.marked)
  {
    hide Start, Step;
    if i < j {
      PacedNode(run, i, j - 1, id);
      PacedEvolves(run, j);
      assert EvolvesAt(run[j - 1].heap, run[j].heap, run[j].head, id);
    }
  }

  /** What was in a layer is still there as a node, and has been on that layer. */
  lemma SinceSeen(run: seq<State>, i: nat, j: nat, id: Id, l: nat)
    requires IsPaced(run) && i <= j < |run| && Since(run, i, j, id, l)
    ensures Seen(run[j].heap, id, l) && l < |run[j].heap[id].skip|
  {
    hide Start, Next;
    var u :| i <= u <= j && u < |run| && InLayerAt(run[u], id, l);
    PacedInv(run, u);
    MyHeap(run[u]);
    assert NodeOK(run[u].heap[id]);
    PacedInv(run, j);
    MyHeap(run[j]);
    hide Inv;
    PacedNode(run, u, j, id);
    assert NodeOK(run[j].heap[id]);
  }

  /** Node x is in layer l at every moment from i to j. */
  ghost predicate Throughout(run: seq<State>, i: nat, j: nat, x: Id, l: nat) {
    forall u :: i <= u <= j && u < |run| ==> x in run[u].heap && l < run[u].heap[x].layers
  }

  /** A link on layer l leads to nothing that left before moment i, and past no x that was there all the time. */
  ghost predicate LeadsWell(run: seq<State>, i: nat, j: nat, id: Id, l: nat, x: Id)
    requires j < |run| && id in run[j].heap && l < |run[j].heap[id].skip|
  {
    var h := run[j].heap;
    var next := h[id].skip[l];
    && (next.Some? ==> Since(run, i, j, next.value, l))
    && (x in h && Throughout(run, i, j, x, l) && Less(h[id], h[x]) ==>
          next.Some? && next.value in h && !Less(h[x], h[next.value]))
  }

  lemma LinkedLeadsWell(run: seq<State>, i: nat, j: nat, id: Id, l: nat, x: Id)
    requires IsPaced(run) && i <= j < |run| && InLayerAt(run[j], id, l)
    ensures l < |run[j].heap[id].skip| && LeadsWell(run, i, j, id, l, x)
  {
    hide Start, Next;
    PacedInv(run, j);
    MyHeap(run[j]);
    hide Inv;
    var h := run[j].heap;
    assert NodeOK(h[id]);
    var next := h[id].skip[l];
    assert IsSucc(h, id, l, next);
    if next.Some? {
      assert NodeOK(h[next.value]);
      assert InLayerAt(run[j], next.value, l);
    }
  }

  lemma {:induction false} SinceLeadsWell(run: seq<State>, i: nat, j: nat, id: Id, l: nat, x: Id)
    requires IsPaced(run) && i <= j < |run| && Since(run, i, j, id, l)
    ensures id in run[j].heap && l < |run[j].heap[id].skip| && LeadsWell(run, i, j, id, l, x)
    decreases j
  {
    hide Start, Next, Inv, Evolves;
    SinceSeen(run, i, j, id, l);
    if InLayerAt(run[j], id, l) {
      LinkedLeadsWell(run, i, j, id, l, x);
    } else {
      var u :| i <= u <= j && u < |run| && InLayerAt(run[u], id, l);
      assert Since(run, i, j - 1, id, l);
      SinceLeadsWell(run, i, j - 1, id, l, x);
      SinceSeen(run, i, j - 1, id, l);
      FrozenLeadsWell(run, i, j, id, l, x);
    }
  }

  lemma FrozenLeadsWell(run: seq<State>, i: nat, j: nat, id: Id, l: nat, x: Id)
    requires IsPaced(run) && i < j < |run| && Seen(run[j - 1].heap, id, l) && l < |run[j - 1].heap[id].skip|
    requires LeadsWell(run, i, j - 1, id, l, x) && id in run[j].heap && l < |run[j].heap[id].skip| &&
        !InLayerAt(run[j], id, l)
    ensures LeadsWell(run, i, j, id, l, x)
  {
    hide Start, Next;
    PacedEvolves(run, j);
    var h, g := run[j - 1].heap, run[j].heap;
    assert EvolvesAt(h, g, run[j].head, id) && Frozen(h, g, run[j].head, id, l);
    var next := g[id].skip[l];
    if next.Some? { SinceGrows(run, i, j - 1, j, next.value, l); }
    if Throughout(run, i, j, x, l) {
      assert Throughout(run, i, j - 1, x, l);
      assert x in h && EvolvesAt(h, g, run[j].head, x);
      if next.Some? && next.value in h { assert EvolvesAt(h, g, run[j].head, next.value); }
    }
  }

  /** Off the top layer of a head or node, one is on the layer below too. */
  lemma SinceBelow(run: seq<State>, i: nat, j: nat, id: Id, l: nat, k: nat)
    requires Since(run, i, j, id, l) && k <= l
    ensures Since(run, i, j, id, k)
  {
    var u :| i <= u <= j && u < |run| && InLayerAt(run[u], id, l);
    assert InLayerAt(run[u], id, k);
  }
}
