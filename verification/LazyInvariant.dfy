/** What holds between any two steps of the lazy skip list: the layers, the locks, and for every thread
    what it may still rely on about the nodes it has seen. */
module LazyInvariant {
  import opened Options
  import opened LazyHeap
  import opened LazySkipList

  // ---------------------------------------------------------------- the history of one key

  /** The last event about the key is an add. */
  ghost predicate Present(log: seq<Event>, k: int) {
    log != [] &&
    var e := log[|log| - 1];
    if e.key == k then e.Added? else Present(log[..|log| - 1], k)
  }

  /** Adds and removes of each key take turns, starting with an add. */
  ghost predicate Alternates(log: seq<Event>) {
    forall i :: 0 <= i < |log| ==> (log[i].Added? <==> !Present(log[..i], log[i].key))
  }

  ghost predicate Live(n: Node) {
    !n.isHead && n.linked && !n.marked
  }

  ghost predicate LogOK(h: Heap, log: seq<Event>) {
    Alternates(log) && forall k :: Present(log, k) <==> HasLive(h, k)
  }

  ghost predicate HasLive(h: Heap, k: int) {
    exists id :: id in h && Live(h[id]) && h[id].key == k
  }

  // ---------------------------------------------------------------- locks and heads

  ghost predicate LocksOK(h: Heap, threads: map<Tid, Thread>) {
    forall id :: id in h && h[id].lock.Some? ==> h[id].lock.value in threads && id in Held(threads[h[id].lock.value])
  }

  /** A head that was replaced is marked, or its lock is held until it is. */
  ghost predicate HeadsOK(h: Heap, head: Id, threads: map<Tid, Thread>) {
    forall id :: id in h && h[id].isHead && h[id].reached > 0 && id != head ==>
        h[id].marked || BeingReplaced(h[id], id, threads)
  }

  ghost predicate BeingReplaced(n: Node, id: Id, threads: map<Tid, Thread>) {
    && n.lock.Some? && n.lock.value in threads
    && var th := threads[n.lock.value]; th.Growing? && th.gpc == GMark && th.prior == id
  }

  // ---------------------------------------------------------------- what a search has established

  predicate Below(n: Node, data: int) {
    n.isHead || n.key < data
  }

  ghost predicate LayerFound(h: Heap, data: int, f: Find, l: nat) {
    && l in f.preds && l in f.succs
    && Seen(h, f.preds[l], l) && Below(h[f.preds[l]], data)
    && (f.succs[l].Some? ==>
          && Seen(h, f.succs[l].value, l) && !h[f.succs[l].value].isHead && data <= h[f.succs[l].value].key
          && (f.found.None? ==> data < h[f.succs[l].value].key))
  }

  function PredAt(f: Find, l: nat): Id {
    if l in f.preds then f.preds[l] else 0
  }

  /** Predecessors get smaller, or stay, from layer to layer upwards. */
  ghost predicate Descends(h: Heap, low: Id, high: Id) {
    low == high || (low in h && high in h && Less(h[high], h[low]))
  }

  ghost predicate FoundOK(h: Heap, data: int, f: Find) {
    && (f.found.None? ==> f.foundLayer == -1)
    && (f.found.Some? ==>
          && 0 <= f.foundLayer <= f.maxLayer && Seen(h, f.found.value, f.foundLayer)
          && !h[f.found.value].isHead && h[f.found.value].key == data)
  }

  /** Layers from the given one up are settled. */
  ghost predicate Settled(h: Heap, data: int, f: Find, from: nat) {
    && (forall l :: from <= l <= f.maxLayer ==> LayerFound(h, data, f, l))
    && (forall l, l' :: from <= l < l' <= f.maxLayer ==> Descends(h, PredAt(f, l), PredAt(f, l')))
    && FoundOK(h, data, f) && (f.found.Some? ==> from <= f.foundLayer)
  }

  ghost predicate Searching(h: Heap, th: Thread)
    requires th.Busy?
  {
    && th.layer <= th.f.maxLayer && Settled(h, th.data, th.f, th.layer + 1)
    && Seen(h, th.pred, th.layer) && Below(h[th.pred], th.data)
    && (th.layer < th.f.maxLayer ==> Descends(h, th.pred, PredAt(th.f, th.layer + 1)))
  }

  // ---------------------------------------------------------------- what the locks guarantee

  /** On how many layers the predecessor has been validated under its lock. */
  function ValidLayers(th: Thread): nat {
    if th.Busy? && th.pc == Validate then th.layer else if th.Busy? && th.pc == Backoff then 0 else LockedLayers(th)
  }

  /** The link of the validated predecessor on layer j, as long as this thread has not changed it. */
  function Expected(th: Thread, j: nat): Option<Option<Id>>
    requires th.Busy?
  {
    match th.pc
    case Prepare => if j < th.layer || j !in th.f.succs then None else Some(th.f.succs[j])
    case Link => if j < th.layer || j !in th.f.succs then None else Some(th.f.succs[j])
    case Announce => None
    case Count => None
    case Unlock => None
    case Unlink => if j <= th.layer then Some(th.victim) else None
    case _ => if j !in th.f.succs then None else Some(th.f.succs[j])
  }

  ghost predicate PredValid(h: Heap, head: Id, th: Thread, j: nat)
    requires th.Busy?
  {
    && j in th.f.preds && InLayer(h, head, th.f.preds[j], j) && !h[th.f.preds[j]].marked
    && j < |h[th.f.preds[j]].skip|
    && (Expected(th, j).Some? ==> h[th.f.preds[j]].skip[j] == Expected(th, j).value)
  }

  ghost predicate VictimOK(h: Heap, th: Thread)
    requires th.Busy? && th.victim.Some?
  {
    && !th.adding && th.victim.value in h
    && var v := h[th.victim.value];
    && !v.isHead && v.key == th.data && v.linked && v.height == th.height > 0
    && (th.pc != MarkVictim ==> v.marked)
    && (th.pc != MarkVictim && th.pc != Count && th.pc != Unlock && th.pc != ReleaseVictim ==>
          v.layers == if th.pc == Unlink then th.layer + 1 else th.height)
  }

  /** The node under construction belongs to this thread until it is announced. */
  ghost predicate NodeMine(h: Heap, t: Tid, th: Thread)
    requires th.Busy?
  {
    && th.node in h
    && var n := h[th.node];
    && !n.isHead && n.key == th.data && n.height == th.height && n.maker == t && !n.linked && !n.marked
    && n.layers == n.reached == (if th.pc == Announce then th.height else th.layer) && |n.skip| == n.height
    && (th.pc == Link ==> th.layer in th.f.succs && th.layer < |n.skip| && n.skip[th.layer] == th.f.succs[th.layer])
  }

  /** Past the search: everything is settled, heights fit, and locked predecessors stay as validated. */
  predicate PastSearch(pc: Pc) {
    pc != ReadMax && pc != ReadHead && pc != Search
  }

  predicate Changing(pc: Pc) {
    pc == Acquire || pc == Validate || pc == Backoff || pc == Create || pc == Prepare || pc == Link || pc == Announce
    || pc == Unlink || pc == Count || pc == Unlock
  }

  ghost predicate BusyOK(h: Heap, head: Id, t: Tid, th: Thread)
    requires th.Busy?
  {
    && (th.pc != ReadMax ==> head in h && th.f.maxLayer < h[head].height)
    && (th.pc == ReadHead ==> th.f.found.None? && th.f.foundLayer == -1)
    && (th.pc == Search ==> Searching(h, th))
    && (PastSearch(th.pc) ==> Settled(h, th.data, th.f, 0))
    && (th.victim.Some? ==> VictimOK(h, th))
    && (th.victim.Some? && th.pc != ReadMax ==> th.height <= th.f.maxLayer + 1)
    && (Changing(th.pc) ==> ChangingOK(h, head, t, th))
    && (th.pc == LockVictim || th.pc == OkMarked ==>
          th.victim.None? && !th.adding && th.f.found.Some? && h[th.f.found.value].linked
          && h[th.f.found.value].height == th.f.foundLayer + 1)
    && (th.pc == OkLinked || th.pc == SeeMarked || th.pc == SeeLinked ==> th.f.found.Some?)
    && (th.pc == OkLinked ==> th.victim.None? && !th.adding)
    && (th.pc == MarkVictim || th.pc == ReleaseVictim ==> th.victim.Some?)
    && (th.pc == SeeMarked || th.pc == SeeLinked || th.pc == GrowMaybe ==> th.adding)
    && (th.adding ==> th.victim.None?)
  }

  ghost predicate ChangingOK(h: Heap, head: Id, t: Tid, th: Thread)
    requires th.Busy?
  {
    && 1 <= th.height <= th.f.maxLayer + 1
    && (th.adding ==> th.f.found.None?)
    && (!th.adding ==> th.victim.Some?)
    && (th.pc != Create && th.pc != Announce && th.pc != Count && th.pc != Unlock ==> th.layer < th.height)
    && (th.pc == Create || th.pc == Prepare || th.pc == Link || th.pc == Announce ==> th.adding)
    && (th.pc == Unlink ==> !th.adding)
    && (th.pc == Prepare || th.pc == Link || th.pc == Announce ==> NodeMine(h, t, th))
    && forall j :: 0 <= j < ValidLayers(th) ==> PredValid(h, head, th, j)
  }

  ghost predicate GrowingOK(h: Heap, head: Id, t: Tid, th: Thread)
    requires th.Growing?
  {
    th.gpc != GRead ==>
      && th.prior in h && h[th.prior].isHead && h[th.prior].reached > 0 && h[th.prior].height < th.toHeight
      && (th.gpc == GMark ==> th.prior != head)
      && (th.gpc == GCas ==> CopyOK(h, head, t, th))
  }

  ghost predicate CopyOK(h: Heap, head: Id, t: Tid, th: Thread)
    requires th.Growing? && th.prior in h
  {
    && th.taller in h
    && var n, o := h[th.taller], h[th.prior];
    && n.isHead && n.maker == t && n.reached == 0 && !n.linked && n.height == th.toHeight == |n.skip| &&
        |o.skip| == o.height
    && (th.prior == head ==>
          && (forall l :: 0 <= l < |o.skip| && l < |n.skip| ==> n.skip[l] == o.skip[l])
          && (forall l :: |o.skip| <= l < |n.skip| ==> n.skip[l] == None))
  }

  ghost predicate Owns(h: Heap, t: Tid, th: Thread) {
    forall id :: id in Held(th) ==> id in h && h[id].lock == Some(t)
  }

  ghost predicate Local(h: Heap, head: Id, t: Tid, th: Thread) {
    && Owns(h, t, th)
    && (th.Busy? ==> BusyOK(h, head, t, th))
    && (th.Growing? ==> GrowingOK(h, head, t, th))
  }

  ghost predicate Inv(s: State) {
    && HeapOK(s.heap, s.head) && LocksOK(s.heap, s.threads) && HeadsOK(s.heap, s.head, s.threads) &&
        LogOK(s.heap, s.log)
    && forall t :: t in s.threads ==> Local(s.heap, s.head, t, s.threads[t])
  }

  // ---------------------------------------------------------------- what others leave alone

  /** A node only its maker can change apart from linked layers. */
  ghost predicate Unfinished(n: Node) {
    !n.linked && (n.isHead ==> n.reached == 0)
  }

  ghost predicate RelyNode(a: Node, b: Node, u: Tid) {
    && b.key == a.key && b.isHead == a.isHead && b.height == a.height && b.maker == a.maker && |b.skip| == |a.skip|
    && a.reached <= b.reached <= b.height && (a.linked ==> b.linked) && (a.marked ==> b.marked)
    && (a.lock == Some(u) ==> KeptLocked(a, b))
    && (a.maker == u && Unfinished(a) ==> KeptMine(a, b))
  }

  ghost predicate KeptLocked(a: Node, b: Node) {
    && b.lock == a.lock && b.marked == a.marked && a.layers <= b.layers && (a.linked ==> b.layers == a.layers)
    && forall l :: 0 <= l < |a.skip| && l < |b.skip| && (a.isHead || l < a.layers) ==> b.skip[l] == a.skip[l]
  }

  ghost predicate KeptMine(a: Node, b: Node) {
    && b.marked == a.marked && b.linked == a.linked && b.layers == a.layers && b.reached == a.reached
    && forall l :: a.layers <= l < |a.skip| && l < |b.skip| ==> b.skip[l] == a.skip[l]
  }

  /** What a step of any other thread guarantees to thread u. */
  ghost predicate Rely(h: Heap, head: Id, g: Heap, head': Id, u: Tid) {
    && (forall id :: id in h ==> id in g && RelyNode(h[id], g[id], u))
    && head in h && head' in g && h[head].height <= g[head'].height
    && (head' != head ==> h[head].lock != Some(u) && (head' in h ==> h[head'].reached == 0))
  }

  lemma SeenStable(h: Heap, head: Id, g: Heap, head': Id, u: Tid, id: Id, l: nat)
    requires Rely(h, head, g, head', u) && Seen(h, id, l)
    ensures Seen(g, id, l) && g[id].key == h[id].key && g[id].isHead == h[id].isHead
  {
    assert RelyNode(h[id], g[id], u);
  }

  lemma LayerFoundStable(h: Heap, head: Id, g: Heap, head': Id, u: Tid, data: int, f: Find, l: nat)
    requires Rely(h, head, g, head', u) && LayerFound(h, data, f, l)
    ensures LayerFound(g, data, f, l)
  {
    SeenStable(h, head, g, head', u, f.preds[l], l);
    if f.succs[l].Some? { SeenStable(h, head, g, head', u, f.succs[l].value, l); }
  }

  lemma DescendsStable(h: Heap, head: Id, g: Heap, head': Id, u: Tid, low: Id, high: Id)
    requires Rely(h, head, g, head', u) && Descends(h, low, high)
    ensures Descends(g, low, high)
  {
    if low != high { assert RelyNode(h[low], g[low], u) && RelyNode(h[high], g[high], u); }
  }

  lemma SettledStable(h: Heap, head: Id, g: Heap, head': Id, u: Tid, data: int, f: Find, from: nat)
    requires Rely(h, head, g, head', u) && Settled(h, data, f, from)
    ensures Settled(g, data, f, from)
  {
    hide Rely, LayerFound, Descends;
    forall l | from <= l <= f.maxLayer ensures LayerFound(g, data, f, l) {
      LayerFoundStable(h, head, g, head', u, data, f, l);
    }
    forall l, l' | from <= l < l' <= f.maxLayer ensures Descends(g, PredAt(f, l), PredAt(f, l')) {
      DescendsStable(h, head, g, head', u, PredAt(f, l), PredAt(f, l'));
    }
    if f.found.Some? { SeenStable(h, head, g, head', u, f.found.value, f.foundLayer); }
  }

  lemma PredValidStable(h: Heap, head: Id, g: Heap, head': Id, u: Tid, th: Thread, j: nat)
    requires Rely(h, head, g, head', u) && th.Busy? && PredValid(h, head, th, j) && h[th.f.preds[j]].lock == Some(u)
    ensures PredValid(g, head', th, j)
  {
    var p := th.f.preds[j];
    assert RelyNode(h[p], g[p], u);
    assert KeptLocked(h[p], g[p]);
  }

  lemma VictimStable(h: Heap, head: Id, g: Heap, head': Id, u: Tid, th: Thread)
    requires Rely(h, head, g, head', u) && th.Busy? && th.victim.Some? && VictimOK(h, th) &&
        h[th.victim.value].lock == Some(u)
    ensures VictimOK(g, th)
  {
    assert RelyNode(h[th.victim.value], g[th.victim.value], u);
  }

  lemma NodeMineStable(h: Heap, head: Id, g: Heap, head': Id, u: Tid, th: Thread)
    requires Rely(h, head, g, head', u) && th.Busy? && NodeMine(h, u, th)
    ensures NodeMine(g, u, th)
  {
    assert RelyNode(h[th.node], g[th.node], u);
    assert KeptMine(h[th.node], g[th.node]);
  }

  lemma ChangingStable(h: Heap, head: Id, g: Heap, head': Id, u: Tid, th: Thread)
    requires Rely(h, head, g, head', u) && th.Busy? && ChangingOK(h, head, u, th) && Owns(h, u, th)
    ensures ChangingOK(g, head', u, th)
  {
    hide Rely, PredValid, NodeMine;
    if th.pc == Prepare || th.pc == Link || th.pc == Announce { NodeMineStable(h, head, g, head', u, th); }
    forall j | 0 <= j < ValidLayers(th) ensures PredValid(g, head', th, j) {
      GuardOf(h, head, u, th, j);
      PredValidStable(h, head, g, head', u, th, j);
    }
  }

  lemma GuardOf(h: Heap, head: Id, t: Tid, th: Thread, j: nat)
    requires th.Busy? && Owns(h, t, th) && PredValid(h, head, th, j) && j < ValidLayers(th)
    ensures j in th.f.preds && th.f.preds[j] in h && h[th.f.preds[j]].lock == Some(t)
  {
    assert th.f.preds[j] in Guarded(th);
    assert th.f.preds[j] in Held(th);
  }

  lemma SearchingStable(h: Heap, head: Id, g: Heap, head': Id, u: Tid, th: Thread)
    requires Rely(h, head, g, head', u) && th.Busy? && Searching(h, th)
    ensures Searching(g, th)
  {
    hide Rely, Settled;
    SettledStable(h, head, g, head', u, th.data, th.f, th.layer + 1);
    SeenStable(h, head, g, head', u, th.pred, th.layer);
    if th.layer < th.f.maxLayer {
      DescendsStable(h, head, g, head', u, th.pred, PredAt(th.f, th.layer + 1));
    }
  }

  lemma SettledAt(h: Heap, data: int, f: Find, from: nat, l: nat)
    requires Settled(h, data, f, from) && from <= l <= f.maxLayer
    ensures LayerFound(h, data, f, l) && l in f.preds && l in f.succs
  {}

  lemma FoundStable(h: Heap, head: Id, g: Heap, head': Id, u: Tid, data: int, f: Find)
    requires Rely(h, head, g, head', u) && FoundOK(h, data, f) && f.found.Some?
    ensures f.found.value in h && f.found.value in g && g[f.found.value].height == h[f.found.value].height
    ensures h[f.found.value].linked ==> g[f.found.value].linked
  {
    assert RelyNode(h[f.found.value], g[f.found.value], u);
  }

  lemma BusyStable(h: Heap, head: Id, g: Heap, head': Id, u: Tid, th: Thread)
    requires Rely(h, head, g, head', u) && th.Busy? && BusyOK(h, head, u, th) && Owns(h, u, th)
    ensures BusyOK(g, head', u, th)
  {
    assert head in h && head' in g && h[head].height <= g[head'].height;
    hide Rely, LayerFound, Descends, VictimOK, ChangingOK, Searching, Owns;
    if th.pc == Search { SearchingStable(h, head, g, head', u, th); }
    if PastSearch(th.pc) {
      SettledStable(h, head, g, head', u, th.data, th.f, 0);
      if th.f.found.Some? { FoundStable(h, head, g, head', u, th.data, th.f); }
    }
    if th.victim.Some? {
      VictimOwned(h, u, th);
      VictimStable(h, head, g, head', u, th);
    }
    if Changing(th.pc) { ChangingStable(h, head, g, head', u, th); }
  }

  lemma VictimOwned(h: Heap, t: Tid, th: Thread)
    requires th.Busy? && th.victim.Some? && Owns(h, t, th)
    ensures th.victim.value in h && h[th.victim.value].lock == Some(t)
  {
    assert th.victim.value in Held(th);
  }

  lemma GrowingStable(h: Heap, head: Id, g: Heap, head': Id, u: Tid, th: Thread)
    requires Rely(h, head, g, head', u) && th.Growing? && GrowingOK(h, head, u, th) && Owns(h, u, th) && NodesOK(g)
    ensures GrowingOK(g, head', u, th)
  {
    if th.gpc != GRead {
      assert RelyNode(h[th.prior], g[th.prior], u);
      if th.gpc == GCas {
        assert th.prior in Held(th);
        assert RelyNode(h[th.taller], g[th.taller], u);
        assert NodeOK(g[th.prior]) && NodeOK(g[th.taller]);
      }
    }
  }

  lemma OwnsStable(h: Heap, head: Id, g: Heap, head': Id, u: Tid, th: Thread)
    requires Rely(h, head, g, head', u) && Owns(h, u, th)
    ensures Owns(g, u, th)
  {
    forall id | id in Held(th) ensures id in g && g[id].lock == Some(u) {
      assert id in h && h[id].lock == Some(u);
      assert RelyNode(h[id], g[id], u);
    }
  }

  /** Whatever other threads do, a thread's own view stays true. */
  lemma LocalStable(h: Heap, head: Id, g: Heap, head': Id, u: Tid, th: Thread)
    requires Rely(h, head, g, head', u) && Local(h, head, u, th) && NodesOK(g)
    ensures Local(g, head', u, th)
  {
    hide Rely, Owns, BusyOK, GrowingOK;
    OwnsStable(h, head, g, head', u, th);
    if th.Busy? { BusyStable(h, head, g, head', u, th); }
    if th.Growing? { GrowingStable(h, head, g, head', u, th); }
  }
}
