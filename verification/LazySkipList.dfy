/** ConcurrentSkipList as a state machine: addOrGetData, remove and growHeight of any number of threads,
    one step per load, store or lock operation on shared memory. */
module LazySkipList {
  import opened Options
  import opened LazyHeap

  datatype Event = Added(key: int) | Removed(key: int)

  /** preds[] and succs[] of findInsertionPoint, filled from the top layer down. */
  datatype Find = Find(maxLayer: nat, preds: map<nat, Id>, succs: map<nat, Option<Id>>, foundLayer: int,
      found: Option<Id>)

  datatype Pc =
    | ReadMax | ReadHead | Search                               // findInsertionPointGetMaxLayer
    | SeeMarked | SeeLinked                                     // addOrGetData found the key
    | OkLinked | OkMarked | LockVictim | MarkVictim             // remove: okToDelete, lock and mark
    | Acquire | Validate | Backoff                              // lockNodesForChange
    | Create | Prepare | Link | Announce                        // addOrGetData under the locks
    | Unlink                                                    // remove under the locks
    | Count | Unlock | ReleaseVictim | GrowMaybe

  datatype GrowPc = GRead | GLock | GCopy | GCas | GMark | GRelease

  datatype Thread =
    | Idle
    | Busy(adding: bool, data: int, pc: Pc, f: Find, victim: Option<Id>, height: nat, layer: nat, pred: Id, node: Id)
    | Growing(gpc: GrowPc, toHeight: nat, prior: Id, taller: Id)

  datatype State = State(heap: Heap, head: Id, threads: map<Tid, Thread>, size: int, log: seq<Event>)

  const NO_FIND := Find(0, map[], map[], -1, None)

  function Restart(th: Thread): Thread
    requires th.Busy?
  {
    th.(pc := ReadMax)
  }

  // ---------------------------------------------------------------- the steps of one thread

  ghost predicate Stay(s: State, t: Tid, th: Thread, s': State) {
    s' == s.(threads := s.threads[t := th])
  }

  ghost predicate Write(s: State, t: Tid, th: Thread, heap: Heap, s': State) {
    s' == s.(threads := s.threads[t := th], heap := heap)
  }

  ghost predicate Begin(s: State, t: Tid, s': State) {
    && t in s.threads && s.threads[t].Idle?
    && exists adding, data :: Stay(s, t, Busy(adding, data, ReadMax, NO_FIND, None, 0, 0, 0, 0), s')
  }

  ghost predicate At(s: State, t: Tid, pc: Pc) {
    t in s.threads && s.threads[t].Busy? && s.threads[t].pc == pc
  }

  ghost predicate DoReadMax(s: State, t: Tid, s': State) {
    && At(s, t, ReadMax) && s.head in s.heap && s.heap[s.head].height > 0
    && Stay(s, t, s.threads[t].(pc := ReadHead, f := Find(s.heap[s.head].height - 1, map[], map[], -1, None)), s')
  }

  ghost predicate DoReadHead(s: State, t: Tid, s': State) {
    && At(s, t, ReadHead)
    && var th := s.threads[t];
       Stay(s, t, th.(pc := Search, layer := th.f.maxLayer, pred := s.head), s')
  }

  /** One link is loaded: move right past it, or settle this layer and go down. */
  ghost predicate DoSearch(s: State, t: Tid, s': State) {
    && At(s, t, Search)
    && var th := s.threads[t];
    && th.pred in s.heap && th.layer < |s.heap[th.pred].skip|
    && var next := s.heap[th.pred].skip[th.layer];
       if next.Some? && next.value in s.heap && s.heap[next.value].key < th.data then
         Stay(s, t, th.(pred := next.value), s')
       else
         var f := Settle(th, next, next.Some? && next.value in s.heap && s.heap[next.value].key == th.data);
         if th.layer > 0 then Stay(s, t, th.(f := f, layer := th.layer - 1), s')
         else AfterSearch(s, t, th.(f := f), s')
  }

  function Settle(th: Thread, next: Option<Id>, equal: bool): Find
    requires th.Busy?
  {
    var f := th.f;
    var f' := if f.foundLayer == -1 && equal then f.(foundLayer := th.layer, found := next) else f;
    f'.(preds := f.preds[th.layer := th.pred], succs := f.succs[th.layer := if f'.found.Some? then f'.found else next])
  }

  ghost predicate AfterSearch(s: State, t: Tid, th: Thread, s': State)
    requires th.Busy?
  {
    if th.adding then
      if th.f.foundLayer >= 0 then Stay(s, t, th.(pc := SeeMarked), s')
      else exists h :: 1 <= h <= th.f.maxLayer + 1 && Stay(s, t, th.(pc := Acquire, layer := 0, height := h), s')
    else if th.victim.Some? then Stay(s, t, th.(pc := Acquire, layer := 0), s')
    else if th.f.foundLayer >= 0 then Stay(s, t, th.(pc := OkLinked), s')
    else Stay(s, t, Idle, s')
  }

  ghost predicate DoSeeMarked(s: State, t: Tid, s': State) {
    && At(s, t, SeeMarked)
    && var th := s.threads[t];
    && th.f.found.Some? && th.f.found.value in s.heap
    && Stay(s, t, if s.heap[th.f.found.value].marked then Restart(th) else th.(pc := SeeLinked), s')
  }

  ghost predicate DoSeeLinked(s: State, t: Tid, s': State) {
    && At(s, t, SeeLinked)
    && var th := s.threads[t];
    && th.f.found.Some? && th.f.found.value in s.heap
    && Stay(s, t, if s.heap[th.f.found.value].linked then Idle else th, s')
  }

  ghost predicate DoOkLinked(s: State, t: Tid, s': State) {
    && At(s, t, OkLinked)
    && var th := s.threads[t];
    && th.f.found.Some? && th.f.found.value in s.heap
    && var n := s.heap[th.f.found.value];
       Stay(s, t, if n.linked && n.height - 1 == th.f.foundLayer then th.(pc := OkMarked) else Idle, s')
  }

  ghost predicate DoOkMarked(s: State, t: Tid, s': State) {
    && At(s, t, OkMarked)
    && var th := s.threads[t];
    && th.f.found.Some? && th.f.found.value in s.heap
    && Stay(s, t, if s.heap[th.f.found.value].marked then Idle else th.(pc := LockVictim), s')
  }

  function Locked(h: Heap, id: Id, t: Tid): Heap
    requires id in h
  {
    h[id := h[id].(lock := Some(t))]
  }

  ghost predicate DoLockVictim(s: State, t: Tid, s': State) {
    && At(s, t, LockVictim)
    && var th := s.threads[t];
    && th.f.found.Some? && th.f.found.value in s.heap && s.heap[th.f.found.value].lock == None
    && Write(s, t, th.(pc := MarkVictim, victim := th.f.found, height := s.heap[th.f.found.value].height),
             Locked(s.heap, th.f.found.value, t), s')
  }

  /** Under the victim's lock: somebody else has marked it, or this remove succeeds now. */
  ghost predicate DoMarkVictim(s: State, t: Tid, s': State) {
    && At(s, t, MarkVictim)
    && var th := s.threads[t];
    && th.victim.Some? && th.victim.value in s.heap
    && var v := th.victim.value;
       if s.heap[v].marked then
         Write(s, t, Idle, s.heap[v := s.heap[v].(lock := None)], s')
       else
         s' == s.(threads := s.threads[t := th.(pc := Acquire, layer := 0)],
                  heap := s.heap[v := s.heap[v].(marked := true)], log := s.log + [Removed(th.data)])
  }

  predicate NeedsLock(th: Thread)
    requires th.Busy?
  {
    th.layer in th.f.preds && !(th.layer > 0 && th.layer - 1 in th.f.preds &&
        th.f.preds[th.layer - 1] == th.f.preds[th.layer])
  }

  ghost predicate DoAcquire(s: State, t: Tid, s': State) {
    && At(s, t, Acquire)
    && var th := s.threads[t];
    && th.layer in th.f.preds && th.f.preds[th.layer] in s.heap
    && if NeedsLock(th) then
         && s.heap[th.f.preds[th.layer]].lock == None
         && Write(s, t, th.(pc := Validate), Locked(s.heap, th.f.preds[th.layer], t), s')
       else Stay(s, t, th.(pc := Validate), s')
  }

  ghost predicate DoValidate(s: State, t: Tid, s': State) {
    && At(s, t, Validate)
    && var th := s.threads[t];
    && th.layer in th.f.preds && th.layer in th.f.succs && th.f.preds[th.layer] in s.heap
    && var p, succ := s.heap[th.f.preds[th.layer]], th.f.succs[th.layer];
    && th.layer < |p.skip| && (succ.Some? ==> succ.value in s.heap)
    && var valid := !p.marked && p.skip[th.layer] == succ && (th.adding && succ.Some? ==> !s.heap[succ.value].marked);
       if !valid then Stay(s, t, th.(pc := Backoff), s')
       else if th.layer + 1 < th.height then Stay(s, t, th.(pc := Acquire, layer := th.layer + 1), s')
       else if th.adding then Stay(s, t, th.(pc := Create), s')
       else Stay(s, t, th.(pc := Unlink), s')
  }

  /** The guards go out of scope: every predecessor lock this thread holds is dropped. */
  ghost function Released(h: Heap, ids: set<Id>): Heap {
    map id | id in h :: if id in ids then h[id].(lock := None) else h[id]
  }

  ghost function Guarded(th: Thread): set<Id>
    requires th.Busy?
  {
    set j | 0 <= j < LockedLayers(th) && j in th.f.preds :: th.f.preds[j]
  }

  ghost predicate DoBackoff(s: State, t: Tid, s': State) {
    && At(s, t, Backoff)
    && Write(s, t, Restart(s.threads[t]), Released(s.heap, Guarded(s.threads[t])), s')
  }

  /** NodeType::create: no links yet, neither linked nor marked. */
  function MadeNode(th: Thread, t: Tid): Node
    requires th.Busy?
  {
    Node(th.data, false, th.height, false, false, None, seq(th.height, _ => None), 0, 0, t)
  }

  ghost predicate DoCreate(s: State, t: Tid, s': State) {
    && At(s, t, Create)
    && var th := s.threads[t];
       exists n :: n !in s.heap &&
         Write(s, t, th.(pc := Prepare, layer := 0, node := n), s.heap[n := MadeNode(th, t)], s')
  }

  ghost predicate DoPrepare(s: State, t: Tid, s': State) {
    && At(s, t, Prepare)
    && var th := s.threads[t];
    && th.node in s.heap && th.layer < |s.heap[th.node].skip| && th.layer in th.f.succs
    && var n := s.heap[th.node];
       Write(s, t, th.(pc := Link), s.heap[th.node := n.(skip := n.skip[th.layer := th.f.succs[th.layer]])], s')
  }

  ghost predicate DoLink(s: State, t: Tid, s': State) {
    && At(s, t, Link)
    && var th := s.threads[t];
    && th.layer in th.f.preds && th.f.preds[th.layer] in s.heap && th.node in s.heap && th.f.preds[th.layer] != th.node
    && th.layer < |s.heap[th.f.preds[th.layer]].skip|
    && Write(s, t, if th.layer + 1 < th.height then th.(pc := Prepare, layer := th.layer + 1) else th.(pc := Announce),
             LinkedHeap(s.heap, th.f.preds[th.layer], th.node, th.layer), s')
  }

  ghost predicate DoAnnounce(s: State, t: Tid, s': State) {
    && At(s, t, Announce)
    && var th := s.threads[t];
    && th.node in s.heap
    && s' == s.(threads := s.threads[t := th.(pc := Count)],
                heap := s.heap[th.node := s.heap[th.node].(linked := true)], log := s.log + [Added(th.data)])
  }

  ghost predicate DoUnlink(s: State, t: Tid, s': State) {
    && At(s, t, Unlink)
    && var th := s.threads[t];
    && th.victim.Some? && th.victim.value in s.heap && th.layer in th.f.preds && th.f.preds[th.layer] in s.heap
    && var p, v := th.f.preds[th.layer], th.victim.value;
    && p != v && th.layer < |s.heap[p].skip| && th.layer < |s.heap[v].skip|
    && Write(s, t, if th.layer > 0 then th.(layer := th.layer - 1) else th.(pc := Count),
             UnlinkedHeap(s.heap, p, v, th.layer), s')
  }

  ghost predicate DoCount(s: State, t: Tid, s': State) {
    && At(s, t, Count)
    && var th := s.threads[t];
       s' == s.(threads := s.threads[t := th.(pc := Unlock)], size := s.size + if th.adding then 1 else -1)
  }

  ghost predicate DoUnlock(s: State, t: Tid, s': State) {
    && At(s, t, Unlock)
    && var th := s.threads[t];
       Write(s, t, th.(pc := if th.adding then GrowMaybe else ReleaseVictim), Released(s.heap, Guarded(th)), s')
  }

  ghost predicate DoReleaseVictim(s: State, t: Tid, s': State) {
    && At(s, t, ReleaseVictim)
    && var th := s.threads[t];
    && th.victim.Some? && th.victim.value in s.heap
    && Write(s, t, Idle, s.heap[th.victim.value := s.heap[th.victim.value].(lock := None)], s')
  }

  /** The size limit of a height is a matter of tuning; growing may or may not be called for. */
  ghost predicate DoGrowMaybe(s: State, t: Tid, s': State) {
    && At(s, t, GrowMaybe) && s.head in s.heap
    && (Stay(s, t, Idle, s') || Stay(s, t, Growing(GRead, s.heap[s.head].height + 1, 0, 0), s'))
  }

  ghost predicate GrowAt(s: State, t: Tid, gpc: GrowPc) {
    t in s.threads && s.threads[t].Growing? && s.threads[t].gpc == gpc
  }

  ghost predicate DoGRead(s: State, t: Tid, s': State) {
    && GrowAt(s, t, GRead) && s.head in s.heap
    && var th := s.threads[t];
       Stay(s, t, if s.heap[s.head].height >= th.toHeight then Idle else th.(gpc := GLock, prior := s.head), s')
  }

  ghost predicate DoGLock(s: State, t: Tid, s': State) {
    && GrowAt(s, t, GLock)
    && var th := s.threads[t];
    && th.prior in s.heap && s.heap[th.prior].lock == None
    && Write(s, t, th.(gpc := GCopy), Locked(s.heap, th.prior, t), s')
  }

  /** copyHead: flags and links of the old head, nothing above them. */
  function CopiedHead(o: Node, height: nat, t: Tid): Node
    requires height >= |o.skip|
  {
    Node(0, true, height, o.marked, o.linked, None, o.skip + seq(height - |o.skip|, _ => None), 0, 0, t)
  }

  ghost predicate DoGCopy(s: State, t: Tid, s': State) {
    && GrowAt(s, t, GCopy)
    && var th := s.threads[t];
    && th.prior in s.heap && th.toHeight > |s.heap[th.prior].skip|
    && exists n :: n !in s.heap &&
         Write(s, t, th.(gpc := GCas, taller := n), s.heap[n := CopiedHead(s.heap[th.prior], th.toHeight, t)], s')
  }

  ghost predicate DoGCas(s: State, t: Tid, s': State) {
    && GrowAt(s, t, GCas)
    && var th := s.threads[t];
    && th.taller in s.heap
    && if s.head == th.prior then
         s' == s.(threads := s.threads[t := th.(gpc := GMark)], head := th.taller,
                  heap := s.heap[th.taller := s.heap[th.taller].(reached := s.heap[th.taller].height)])
       else Stay(s, t, th.(gpc := GRelease), s')
  }

  ghost predicate DoGMark(s: State, t: Tid, s': State) {
    && GrowAt(s, t, GMark)
    && var th := s.threads[t];
    && th.prior in s.heap
    && Write(s, t, th.(gpc := GRelease), s.heap[th.prior := s.heap[th.prior].(marked := true)], s')
  }

  ghost predicate DoGRelease(s: State, t: Tid, s': State) {
    && GrowAt(s, t, GRelease)
    && var th := s.threads[t];
    && th.prior in s.heap
    && Write(s, t, Idle, s.heap[th.prior := s.heap[th.prior].(lock := None)], s')
  }

  ghost predicate BusyStep(s: State, t: Tid, s': State) {
    || DoReadMax(s, t, s') || DoReadHead(s, t, s') || DoSearch(s, t, s')
    || DoSeeMarked(s, t, s') || DoSeeLinked(s, t, s') || DoOkLinked(s, t, s') || DoOkMarked(s, t, s')
    || DoLockVictim(s, t, s') || DoMarkVictim(s, t, s')
    || DoAcquire(s, t, s') || DoValidate(s, t, s') || DoBackoff(s, t, s')
    || DoCreate(s, t, s') || DoPrepare(s, t, s') || DoLink(s, t, s') || DoAnnounce(s, t, s')
    || DoUnlink(s, t, s') || DoCount(s, t, s') || DoUnlock(s, t, s') || DoReleaseVictim(s, t, s') ||
        DoGrowMaybe(s, t, s')
  }

  ghost predicate GrowStep(s: State, t: Tid, s': State) {
    || DoGRead(s, t, s') || DoGLock(s, t, s') || DoGCopy(s, t, s') || DoGCas(s, t, s') || DoGMark(s, t, s') ||
        DoGRelease(s, t, s')
  }

  ghost predicate Step(s: State, t: Tid, s': State) {
    Begin(s, t, s') || BusyStep(s, t, s') || GrowStep(s, t, s')
  }

  ghost predicate Next(s: State, s': State) {
    exists t :: Step(s, t, s')
  }

  function FirstHead(height: nat, maker: Tid): Node {
    Node(0, true, height, false, false, None, seq(height, _ => None), 0, height, maker)
  }

  ghost predicate Start(s: State) {
    && (exists height: nat, maker :: height > 0 && s.head == 0 && s.heap == map[0 := FirstHead(height, maker)])
    && (forall t :: t in s.threads ==> s.threads[t].Idle?) && s.size == 0 && s.log == []
  }

  ghost predicate IsRun(run: seq<State>) {
    |run| > 0 && Start(run[0]) && forall i :: 0 < i < |run| ==> Next(run[i - 1], run[i])
  }

  // ---------------------------------------------------------------- what a thread holds

  /** On how many layers the thread has locked its predecessor. */
  function LockedLayers(th: Thread): nat {
    if !th.Busy? then 0
    else match th.pc
      case Acquire => th.layer
      case Validate => th.layer + 1
      case Backoff => th.layer + 1
      case Create => th.height
      case Prepare => th.height
      case Link => th.height
      case Announce => th.height
      case Unlink => th.height
      case Count => th.height
      case Unlock => th.height
      case _ => 0
  }

  ghost function Held(th: Thread): set<Id> {
    match th
    case Idle => {}
    case Busy(_, _, _, _, victim, _, _, _, _) => Guarded(th) + if victim.Some? then {victim.value} else {}
    case Growing(gpc, _, prior, _) => if gpc == GRead || gpc == GLock then {} else {prior}
  }
}
