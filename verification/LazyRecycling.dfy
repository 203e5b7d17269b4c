/** The skip list and its recycler together: threads work on the list inside accessors, nodes that leave the list are
    handed to the recycler, and no thread ever touches a node that has been destroyed. */
module LazyRecycling {
  import opened Options
  import opened LazyHeap
  import opened LazySkipList
  import opened LazyInvariant
  import opened LazyProofs
  import opened LazyTheorems
  import opened LazyReach
  import opened LazyLookups
  import opened LazyAnswers
  import R = Recycler

  datatype Joint = Joint(list: State, rec: R.State)

  /** The node is in the list; the head is. */
  ghost predicate InSome(s: State, n: Id) {
    InLayerAt(s, n, 0)
  }

  /** A step takes the node out of the list for good: the last link to it is gone, or another head is in its place. */
  ghost predicate Retires(s: State, s': State, n: Id) {
    InSome(s, n) && !InSome(s', n)
  }

  predicate Working(s: State, t: Tid) {
    t in s.threads && !s.threads[t].Idle?
  }

  /** A step on the list by a thread inside its accessor; a node that it retires is its to hand over. */
  ghost predicate ListStep(a: Joint, t: Tid, b: Joint) {
    && t in a.rec.pcs && (a.rec.pcs[t].In? || a.rec.pcs[t].Adding?) && (Begin(a.list, t, b.list) ==> a.rec.pcs[t].In?)
    && Step(a.list, t, b.list)
    && if exists n :: Retires(a.list, b.list, n) then
         exists n :: Retires(a.list, b.list, n) && R.Unlink(a.rec, t, n, b.rec)
       else b.rec == a.rec
  }

  /** A step of the recycler, for a thread that is between two operations on the list. */
  ghost predicate RecyclerStep(a: Joint, t: Tid, b: Joint) {
    && b.list == a.list && !Working(a.list, t)
    && (R.AddRef(a.rec, t, b.rec) || R.TakeLock(a.rec, t, b.rec) || R.Park(a.rec, t, b.rec) ||
        R.BeginRelease(a.rec, t, b.rec)
        || R.Check(a.rec, t, b.rec) || R.DropFast(a.rec, t, b.rec) || R.DropLocked(a.rec, t, b.rec) ||
            R.Swap(a.rec, t, b.rec)
        || R.Unlock(a.rec, t, b.rec) || R.Destroy(a.rec, t, b.rec))
  }

  ghost predicate JointStep(a: Joint, b: Joint) {
    (exists t :: ListStep(a, t, b)) || (exists t :: RecyclerStep(a, t, b))
  }

  ghost predicate IsJointRun(run: seq<Joint>) {
    && |run| > 0 && Start(run[0].list) && R.Start(run[0].rec)
    && forall i :: 0 < i < |run| ==> JointStep(run[i - 1], run[i])
  }

  /** The list's side of a joint run. */
  function Lists(run: seq<Joint>): (ls: seq<State>)
    ensures |ls| == |run| && forall i :: 0 <= i < |run| ==> ls[i] == run[i].list
  {
    seq(|run|, i requires 0 <= i < |run| => run[i].list)
  }

  lemma ListsArePaced(run: seq<Joint>)
    requires IsJointRun(run)
    ensures IsPaced(Lists(run))
  {
    hide Start, R.Start;
    var ls := Lists(run);
    forall i | 0 < i < |ls| ensures ls[i] == ls[i - 1] || Next(ls[i - 1], ls[i]) {
      assert JointStep(run[i - 1], run[i]);
      JointMoves(run[i - 1], run[i]);
    }
  }

  lemma JointMoves(a: Joint, b: Joint)
    requires JointStep(a, b)
    ensures b.list == a.list || Next(a.list, b.list)
  {
    hide Step, R.Unlink;
  }

  // ---------------------------------------------------------------- the recycler's side

  lemma RecyclerMoves(a: Joint, b: Joint)
    requires JointStep(a, b)
    ensures b.rec == a.rec || R.Step(a.rec, b.rec)
  {
    hide Step, R.Unlink, R.AddRef, R.TakeLock, R.Park, R.BeginRelease, R.Check, R.DropFast, R.DropLocked, R.Swap,
        R.Unlock,
      R.Destroy;
    if exists t :: RecyclerStep(a, t, b) {
      var t :| RecyclerStep(a, t, b);
      assert R.StepBy(a.rec, t, b.rec);
    } else {
      var t :| ListStep(a, t, b);
      if exists n :: Retires(a.list, b.list, n) {
        var n :| Retires(a.list, b.list, n) && R.Unlink(a.rec, t, n, b.rec);
        assert R.StepBy(a.rec, t, b.rec);
      }
    }
  }

  lemma {:induction false} RecyclerInv(run: seq<Joint>, i: nat)
    requires IsJointRun(run) && i < |run|
    ensures R.FullInv(run[i].rec)
  {
    hide Start, JointStep, R.FullInv;
    if i == 0 {
      R.RunInv([run[0].rec]);
    } else {
      RecyclerInv(run, i - 1);
      assert JointStep(run[i - 1], run[i]);
      RecyclerMoves(run[i - 1], run[i]);
      if run[i].rec != run[i - 1].rec { R.StepInv(run[i - 1].rec, run[i].rec); }
    }
  }

  // ---------------------------------------------------------------- whoever works holds a reference

  /** The operation has taken its node out of the list already. */
  predicate HasRetired(th: Thread) {
    || (th.Busy? && !th.adding && (th.pc == Count || th.pc == Unlock || th.pc == ReleaseVictim))
    || (th.Growing? && (th.gpc == GMark || th.gpc == GRelease))
  }

  ghost predicate WorkerHolds(a: Joint, t: Tid) {
    Working(a.list, t) ==>
      t in a.rec.pcs && (a.rec.pcs[t].In? || (a.rec.pcs[t].Adding? && HasRetired(a.list.threads[t])))
  }

  /** Which operations retire nodes, and what they do next. */
  lemma RetiringStep(s: State, t: Tid, s': State, n: Id)
    requires Inv(s) && Step(s, t, s') && Retires(s, s', n)
    ensures Working(s, t) && !HasRetired(s.threads[t]) && t in s'.threads && HasRetired(s'.threads[t])
  {
    hide Inv, Evolves, DoUnlink, DoGCas, DoLockVictim, DoAcquire, DoReleaseVictim, DoGLock, DoGRelease, DoBackoff,
        DoUnlock,
      DoMarkVictim, DoGMark, DoCreate, DoGCopy, DoPrepare, DoAnnounce, DoLink, DoSearch;
    if DoUnlink(s, t, s') { UnlinkRetires(s, t, s', n); }
    else if DoGCas(s, t, s') { SwapRetires(s, t, s', n); }
    else { OthersRetireNothing(s, t, s', n); assert false; }
  }

  lemma UnlinkRetires(s: State, t: Tid, s': State, n: Id)
    requires Inv(s) && DoUnlink(s, t, s') && Retires(s, s', n)
    ensures Working(s, t) && !HasRetired(s.threads[t]) && t in s'.threads && HasRetired(s'.threads[t])
  {
    MyHeap(s);
    MyBusy(s, t);
    hide Inv, HeapOK;
    assert VictimOK(s.heap, s.threads[t]);
    hide BusyOK;
  }

  lemma SwapRetires(s: State, t: Tid, s': State, n: Id)
    requires Inv(s) && DoGCas(s, t, s') && Retires(s, s', n)
    ensures Working(s, t) && !HasRetired(s.threads[t]) && t in s'.threads && HasRetired(s'.threads[t])
  {
    hide Inv;
  }

  /** No layer lost, and the head where it was. */
  ghost predicate KeptLayers(s: State, s': State, n: Id) {
    && s'.head == s.head && n in s.heap && n in s'.heap && s'.heap[n].layers >= s.heap[n].layers
    && s'.heap[n].isHead == s.heap[n].isHead && s'.heap[n].height == s.heap[n].height
  }

  lemma LockLayers(s: State, t: Tid, s': State, n: Id)
    requires n in s.heap && (DoLockVictim(s, t, s') || DoAcquire(s, t, s') || DoReleaseVictim(s, t, s') ||
        DoGLock(s, t, s') || DoGRelease(s, t, s'))
    ensures KeptLayers(s, s', n)
  {}

  lemma ReleaseLayers(s: State, t: Tid, s': State, n: Id)
    requires n in s.heap && (DoBackoff(s, t, s') || DoUnlock(s, t, s') || DoMarkVictim(s, t, s') || DoGMark(s, t, s'))
    ensures KeptLayers(s, s', n)
  {
    hide Guarded;
  }

  lemma NewLayers(s: State, t: Tid, s': State, n: Id)
    requires n in s.heap && (DoCreate(s, t, s') || DoGCopy(s, t, s') || DoPrepare(s, t, s') || DoAnnounce(s, t, s'))
    ensures KeptLayers(s, s', n)
  {}

  lemma LinkLayers(s: State, t: Tid, s': State, n: Id)
    requires Inv(s) && n in s.heap && DoLink(s, t, s')
    ensures KeptLayers(s, s', n)
  {
    MyBusy(s, t);
    hide Inv;
    assert NodeMine(s.heap, t, s.threads[t]);
    hide BusyOK;
  }

  lemma OthersRetireNothing(s: State, t: Tid, s': State, n: Id)
    requires Inv(s) && Step(s, t, s') && !DoUnlink(s, t, s') && !DoGCas(s, t, s') && n in s.heap
    ensures KeptLayers(s, s', n)
  {
    hide Inv, KeptLayers, DoUnlink, DoGCas, DoLockVictim, DoAcquire, DoReleaseVictim, DoGLock, DoGRelease, DoBackoff,
        DoUnlock,
      DoMarkVictim, DoGMark, DoCreate, DoGCopy, DoPrepare, DoAnnounce, DoLink, Begin, DoReadMax, DoReadHead, DoSearch,
          DoSeeMarked,
      DoSeeLinked, DoOkLinked, DoOkMarked, DoValidate, DoCount, DoGrowMaybe, DoGRead;
    if DoLockVictim(s, t, s') || DoAcquire(s, t, s') || DoReleaseVictim(s, t, s') || DoGLock(s, t, s') ||
        DoGRelease(s, t, s') {
      LockLayers(s, t, s', n);
    } else if DoBackoff(s, t, s') || DoUnlock(s, t, s') || DoMarkVictim(s, t, s') || DoGMark(s, t, s') {
      ReleaseLayers(s, t, s', n);
    } else if DoCreate(s, t, s') || DoGCopy(s, t, s') || DoPrepare(s, t, s') || DoAnnounce(s, t, s') {
      NewLayers(s, t, s', n);
    } else if DoLink(s, t, s') {
      LinkLayers(s, t, s', n);
    } else {
      ReadsOnly(s, t, s');
      SameLayers(s, s', n);
    }
  }

  lemma SameLayers(s: State, s': State, n: Id)
    requires n in s.heap && s'.heap == s.heap && s'.head == s.head
    ensures KeptLayers(s, s', n)
  {}

  /** A thread is at work only inside its accessor, and has handed over at most the node of this operation. */
  lemma {:induction false} WorkersHold(run: seq<Joint>, j: nat, t: Tid)
    requires IsJointRun(run) && j < |run|
    ensures WorkerHolds(run[j], t)
  {
    hide Inv, Step, R.Unlink, JointStep, Retires, R.Start;
    if j == 0 {
      assert Start(run[0].list);
    } else {
      WorkersHold(run, j - 1, t);
      ListsArePaced(run);
      PacedInv(Lists(run), j - 1);
      assert JointStep(run[j - 1], run[j]);
      HoldStep(run[j - 1], run[j], t);
    }
  }

  lemma HoldStep(a: Joint, b: Joint, t: Tid)
    requires Inv(a.list) && JointStep(a, b) && WorkerHolds(a, t)
    ensures WorkerHolds(b, t)
  {
    hide Inv, Step, Retires, Begin;
    if exists u :: RecyclerStep(a, u, b) {
      var u :| RecyclerStep(a, u, b);
      RecyclerHold(a, u, b, t);
    } else {
      var u :| ListStep(a, u, b);
      ListHold(a, u, b, t);
    }
  }

  lemma RecyclerHold(a: Joint, u: Tid, b: Joint, t: Tid)
    requires RecyclerStep(a, u, b) && WorkerHolds(a, t)
    ensures WorkerHolds(b, t)
  {}

  lemma ListHold(a: Joint, u: Tid, b: Joint, t: Tid)
    requires Inv(a.list) && ListStep(a, u, b) && WorkerHolds(a, t)
    ensures WorkerHolds(b, t)
  {
    hide Inv, Step, Retires, Begin, HasRetired;
    StepThread(a.list, u, b.list);
    if exists n :: Retires(a.list, b.list, n) {
      var n :| Retires(a.list, b.list, n) && R.Unlink(a.rec, u, n, b.rec);
      RetiringStep(a.list, u, b.list, n);
    } else if u == t {
      if !Working(a.list, t) { IdleBegins(a.list, t, b.list); }
      else if HasRetired(a.list.threads[t]) { RetiredStays(a.list, t, b.list); }
    }
  }

  lemma IdleBegins(s: State, t: Tid, s': State)
    requires Step(s, t, s') && !Working(s, t)
    ensures Begin(s, t, s')
  {
    hide Settle, Guarded, Released, Locked, LinkedHeap, UnlinkedHeap, MadeNode, CopiedHead, Begin;
  }

  /** After its node is out, an operation only finishes. */
  lemma RetiredStays(s: State, t: Tid, s': State)
    requires Step(s, t, s') && Working(s, t) && HasRetired(s.threads[t])
    ensures t in s'.threads && (Working(s', t) ==> HasRetired(s'.threads[t]))
  {
    hide Settle, Guarded, Released, Locked, LinkedHeap, UnlinkedHeap, MadeNode, CopiedHead;
  }

  // ---------------------------------------------------------------- what a thread at work refers to

  /** The node was in the list at some moment since i. */
  ghost predicate SeenSince(ls: seq<State>, i: nat, j: nat, n: Id) {
    exists l: nat :: Since(ls, i, j, n, l)
  }

  /** Everything the thread may follow or lock was in the list at some moment of its operation. */
  ghost predicate RefsOK(ls: seq<State>, i: nat, j: nat, th: Thread) {
    match th
    case Idle => true
    case Busy(_, _, pc, f, victim, _, layer, pred, _) =>
      && (pc == Search ==> Since(ls, i, j, pred, layer))
      && (forall l :: l in f.preds ==> SeenSince(ls, i, j, f.preds[l]))
      && (forall l :: l in f.succs && f.succs[l].Some? ==> SeenSince(ls, i, j, f.succs[l].value))
      && (f.found.Some? ==> SeenSince(ls, i, j, f.found.value))
      && (victim.Some? ==> SeenSince(ls, i, j, victim.value))
    case Growing(gpc, _, prior, _) => gpc != GRead ==> SeenSince(ls, i, j, prior)
  }

  lemma SeenStays(ls: seq<State>, i: nat, j: nat, n: Id)
    requires SeenSince(ls, i, j, n)
    ensures SeenSince(ls, i, j + 1, n)
  {
    var l: nat :| Since(ls, i, j, n, l);
    SinceGrows(ls, i, j, j + 1, n, l);
  }

  lemma RefsStay(ls: seq<State>, i: nat, j: nat, th: Thread)
    requires RefsOK(ls, i, j, th)
    ensures RefsOK(ls, i, j + 1, th)
  {
    hide SeenSince, Since;
    forall n | SeenSince(ls, i, j, n) ensures SeenSince(ls, i, j + 1, n) { SeenStays(ls, i, j, n); }
    if th.Busy? && th.pc == Search { SinceGrows(ls, i, j, j + 1, th.pred, th.layer); }
  }

  lemma SearchRefs(ls: seq<State>, i: nat, j: nat, t: Tid, s': State)
    requires IsPaced(ls) && i <= j < |ls| && t in ls[j].threads && RefsOK(ls, i, j, ls[j].threads[t]) &&
        DoSearch(ls[j], t, s')
    ensures t in s'.threads && RefsOK(ls, i, j, s'.threads[t])
  {
    hide IsPaced, Since, SeenSince;
    var th := ls[j].threads[t];
    Follows(ls, i, j, th.pred, th.layer);
    var next := ls[j].heap[th.pred].skip[th.layer];
    SeenOne(ls, i, j, th.pred, th.layer);
    if next.Some? { SeenOne(ls, i, j, next.value, th.layer); }
    if th.layer > 0 { SinceBelow(ls, i, j, th.pred, th.layer, th.layer - 1); }
  }

  lemma SeenOne(ls: seq<State>, i: nat, j: nat, n: Id, l: nat)
    requires Since(ls, i, j, n, l)
    ensures SeenSince(ls, i, j, n)
  {}

  lemma ReadRefs(ls: seq<State>, i: nat, j: nat, t: Tid, s': State)
    requires IsPaced(ls) && i <= j < |ls| && t in ls[j].threads && RefsOK(ls, i, j, ls[j].threads[t])
    requires Begin(ls[j], t, s') || DoReadMax(ls[j], t, s') || DoReadHead(ls[j], t, s') || DoGRead(ls[j], t, s')
    ensures t in s'.threads && RefsOK(ls, i, j, s'.threads[t])
  {
    hide Start, Next, Since, SeenSince;
    var th := ls[j].threads[t];
    HeadIsTall(ls, j);
    HeadSince(ls, i, j, 0);
    SeenOne(ls, i, j, ls[j].head, 0);
    if DoReadHead(ls[j], t, s') {
      PacedInv(ls, j);
      MyBusy(ls[j], t);
      hide Inv, BusyOK;
      HeadSince(ls, i, j, th.f.maxLayer);
    }
  }

  lemma PlainRefs(ls: seq<State>, i: nat, j: nat, t: Tid, s: State, s': State)
    requires t in s.threads && RefsOK(ls, i, j, s.threads[t])
    requires DoSeeMarked(s, t, s') || DoSeeLinked(s, t, s') || DoOkLinked(s, t, s') || DoOkMarked(s, t, s') ||
        DoLockVictim(s, t, s')
      || DoMarkVictim(s, t, s') || DoAcquire(s, t, s') || DoValidate(s, t, s') || DoBackoff(s, t, s')
    ensures t in s'.threads && RefsOK(ls, i, j, s'.threads[t])
  {
    hide Since, SeenSince, Locked, Released, Guarded;
  }

  lemma LateRefs(ls: seq<State>, i: nat, j: nat, t: Tid, s: State, s': State)
    requires t in s.threads && RefsOK(ls, i, j, s.threads[t])
    requires DoCreate(s, t, s') || DoPrepare(s, t, s') || DoLink(s, t, s') || DoAnnounce(s, t, s') ||
        DoUnlink(s, t, s') || DoCount(s, t, s')
      || DoUnlock(s, t, s') || DoReleaseVictim(s, t, s') || DoGrowMaybe(s, t, s')
    ensures t in s'.threads && RefsOK(ls, i, j, s'.threads[t])
  {
    hide Since, SeenSince, Released, Guarded, LinkedHeap, UnlinkedHeap, MadeNode;
  }

  lemma GrowRefs(ls: seq<State>, i: nat, j: nat, t: Tid, s: State, s': State)
    requires t in s.threads && RefsOK(ls, i, j, s.threads[t])
    requires DoGLock(s, t, s') || DoGCopy(s, t, s') || DoGCas(s, t, s') || DoGMark(s, t, s') || DoGRelease(s, t, s')
    ensures t in s'.threads && RefsOK(ls, i, j, s'.threads[t])
  {
    hide Since, SeenSince, Locked, CopiedHead;
  }

  lemma RefsMove(ls: seq<State>, i: nat, j: nat, t: Tid, s': State)
    requires IsPaced(ls) && i <= j < |ls| && t in ls[j].threads && RefsOK(ls, i, j, ls[j].threads[t]) &&
        Step(ls[j], t, s')
    ensures t in s'.threads && RefsOK(ls, i, j, s'.threads[t])
  {
    hide IsPaced, RefsOK, Begin, DoReadMax, DoReadHead, DoSearch, DoSeeMarked, DoSeeLinked, DoOkLinked, DoOkMarked,
        DoLockVictim,
      DoMarkVictim, DoAcquire, DoValidate, DoBackoff, DoCreate, DoPrepare, DoLink, DoAnnounce, DoUnlink, DoCount,
          DoUnlock,
      DoReleaseVictim, DoGrowMaybe, DoGRead, DoGLock, DoGCopy, DoGCas, DoGMark, DoGRelease;
    var s := ls[j];
    if DoSearch(s, t, s') { SearchRefs(ls, i, j, t, s'); }
    else if Begin(s, t, s') || DoReadMax(s, t, s') || DoReadHead(s, t, s') || DoGRead(s, t, s') {
        ReadRefs(ls, i, j, t, s'); }
    else if DoGLock(s, t, s') || DoGCopy(s, t, s') || DoGCas(s, t, s') || DoGMark(s, t, s') || DoGRelease(s, t, s') {
      GrowRefs(ls, i, j, t, s, s');
    } else if DoCreate(s, t, s') || DoPrepare(s, t, s') || DoLink(s, t, s') || DoAnnounce(s, t, s') ||
        DoUnlink(s, t, s')
      || DoCount(s, t, s') || DoUnlock(s, t, s') || DoReleaseVictim(s, t, s') || DoGrowMaybe(s, t, s') {
      LateRefs(ls, i, j, t, s, s');
    } else {
      PlainRefs(ls, i, j, t, s, s');
    }
  }

  /** The moment at which the operation under way began. */
  lemma {:induction false} OperationRefs(ls: seq<State>, j: nat, t: Tid) returns (i: nat)
    requires IsPaced(ls) && j < |ls| && Working(ls[j], t)
    ensures i <= j && (forall u :: i <= u <= j ==> Working(ls[u], t)) && RefsOK(ls, i, j, ls[j].threads[t])
  {
    hide IsPaced, Step, RefsOK;
    if j == 0 {
      assert false by { NobodyAtFirst(ls, t); }
    } else if Working(ls[j - 1], t) {
      i := OperationRefs(ls, j - 1, t);
      Moves(ls, j - 1, t);
      if Step(ls[j - 1], t, ls[j]) { RefsMove(ls, i, j - 1, t, ls[j]); }
      RefsStay(ls, i, j - 1, ls[j].threads[t]);
    } else {
      i := j;
      ThreadsStay(ls, j, t);
      Moves(ls, j - 1, t);
      IdleBegins(ls[j - 1], t, ls[j]);
      FreshRefs(ls, j, t);
    }
  }

  lemma NobodyAtFirst(ls: seq<State>, t: Tid)
    requires IsPaced(ls)
    ensures !Working(ls[0], t)
  {
    hide Next;
  }

  lemma ThreadsStay(ls: seq<State>, j: nat, t: Tid)
    requires IsPaced(ls) && 0 < j < |ls| && t in ls[j].threads
    ensures t in ls[j - 1].threads
  {
    hide Start, Step;
    if ls[j] != ls[j - 1] {
      assert Next(ls[j - 1], ls[j]);
      var u :| Step(ls[j - 1], u, ls[j]);
      StepThread(ls[j - 1], u, ls[j]);
    }
  }

  lemma FreshRefs(ls: seq<State>, j: nat, t: Tid)
    requires 0 < j < |ls| && Begin(ls[j - 1], t, ls[j]) && t in ls[j].threads
    ensures RefsOK(ls, j, j, ls[j].threads[t])
  {
    hide Since, SeenSince;
  }

  // ---------------------------------------------------------------- when a node went to the recycler

  /** The node was retired by the step to w, with all the accessors of that moment as its seers. */
  ghost predicate RetiredAt(run: seq<Joint>, w: nat, j: nat, n: Id) {
    && 0 < w <= j < |run| && Retires(run[w - 1].list, run[w].list, n)
    && n in run[j].rec.seers && run[j].rec.seers[n] == R.Holders(run[w - 1].rec.pcs)
  }

  lemma {:induction false} Retired(run: seq<Joint>, j: nat, n: Id) returns (w: nat)
    requires IsJointRun(run) && j < |run| && n in run[j].rec.seers
    ensures RetiredAt(run, w, j, n)
  {
    hide Start, Step, Retires;
    assert j > 0;
    assert JointStep(run[j - 1], run[j]);
    if n in run[j - 1].rec.seers {
      w := Retired(run, j - 1, n);
      SeersStay(run[j - 1], run[j], n);
    } else {
      w := j;
      NewSeers(run[j - 1], run[j], n);
    }
  }

  lemma SeersStay(a: Joint, b: Joint, n: Id)
    requires JointStep(a, b) && n in a.rec.seers
    ensures n in b.rec.seers && b.rec.seers[n] == a.rec.seers[n]
  {
    hide Step, Retires;
  }

  lemma NewSeers(a: Joint, b: Joint, n: Id)
    requires JointStep(a, b) && n !in a.rec.seers && n in b.rec.seers
    ensures Retires(a.list, b.list, n) && b.rec.seers[n] == R.Holders(a.rec.pcs)
  {
    hide Step, Retires;
  }

  /** Out of the list and never to come back: not a node under construction. */
  ghost predicate Gone(s: State, n: Id) {
    n in s.heap && !InSome(s, n) && (s.heap[n].marked || s.heap[n].isHead) && s.heap[n].reached > 0
  }

  lemma RetiredIsGone(ls: seq<State>, w: nat, n: Id)
    requires IsPaced(ls) && 0 < w < |ls| && Retires(ls[w - 1], ls[w], n)
    ensures Gone(ls[w], n)
  {
    hide Start, Next;
    PacedInv(ls, w - 1);
    MyHeap(ls[w - 1]);
    hide Inv;
    assert NodeOK(ls[w - 1].heap[n]);
    PacedEvolves(ls, w);
    assert EvolvesAt(ls[w - 1].heap, ls[w].heap, ls[w].head, n);
  }

  lemma {:induction false} GoneForEver(ls: seq<State>, w: nat, u: nat, n: Id)
    requires IsPaced(ls) && w <= u < |ls| && Gone(ls[w], n)
    ensures Gone(ls[u], n)
  {
    hide Start, Next;
    if w < u {
      GoneForEver(ls, w, u - 1, n);
      PacedInv(ls, u - 1);
      MyHeap(ls[u - 1]);
      hide Inv;
      assert NodeOK(ls[u - 1].heap[n]);
      PacedEvolves(ls, u);
      assert EvolvesAt(ls[u - 1].heap, ls[u].heap, ls[u].head, n);
    }
  }

  // ---------------------------------------------------------------- no use after destruction

  lemma StillSeen(run: seq<Joint>, i: nat, j: nat, t: Tid, n: Id)
    requires IsJointRun(run) && i <= j < |run| && SeenSince(Lists(run), i, j, n)
    requires forall u :: i <= u <= j ==> Working(run[u].list, t)
    ensures n !in run[j].rec.destroyed
  {
    hide Start, JointStep, R.Start, IsPaced, Working, Since;
    RecyclerInv(run, j);
    if n in run[j].rec.destroyed {
      DestroyedIsUnseen(run[j].rec, n);
      var w := Retired(run, j, n);
      ListsArePaced(run);
      var ls := Lists(run);
      RetiredIsGone(ls, w, n);
      LeftAfter(ls, i, j, w, n);
      assert Working(run[w - 1].list, t) && Working(run[j].list, t);
      Holding(run, w - 1, t);
      Holding(run, j, t);
      assert false;
    }
  }

  lemma DestroyedIsUnseen(r: R.State, n: Id)
    requires R.FullInv(r) && n in r.destroyed
    ensures n in r.seers && R.Unseen(r, n)
  {}

  /** A node that was in the list at some moment from i to j left it after i. */
  lemma LeftAfter(ls: seq<State>, i: nat, j: nat, w: nat, n: Id)
    requires IsPaced(ls) && i <= j < |ls| && w <= j && Gone(ls[w], n) && SeenSince(ls, i, j, n)
    ensures i < w
  {
    hide IsPaced;
    var l: nat :| Since(ls, i, j, n, l);
    var u :| i <= u <= j && u < |ls| && InLayerAt(ls[u], n, l);
    assert InSome(ls[u], n);
    if w <= u { GoneForEver(ls, w, u, n); }
  }

  lemma Holding(run: seq<Joint>, j: nat, t: Tid)
    requires IsJointRun(run) && j < |run| && Working(run[j].list, t)
    ensures t in run[j].rec.pcs && R.Holder(run[j].rec.pcs[t]) && t in R.Holders(run[j].rec.pcs)
  {
    hide IsJointRun;
    WorkersHold(run, j, t);
  }

  /** The nodes a thread may follow, lock or write next. */
  ghost predicate Touches(th: Thread, n: Id) {
    match th
    case Idle => false
    case Busy(_, _, pc, f, victim, _, _, pred, _) =>
      || (pc == Search && n == pred)
      || (exists l :: l in f.preds && f.preds[l] == n)
      || (exists l :: l in f.succs && f.succs[l] == Some(n))
      || f.found == Some(n) || victim == Some(n)
    case Growing(gpc, _, prior, _) => gpc != GRead && n == prior
  }

  /** No thread searching, validating, linking, removing or growing ever stands on a node that has been destroyed. */
  lemma NothingDestroyedInUse(run: seq<Joint>, j: nat, t: Tid, n: Id)
    requires IsJointRun(run) && j < |run| && t in run[j].list.threads && Touches(run[j].list.threads[t], n)
    ensures n !in run[j].rec.destroyed
  {
    hide IsJointRun, IsPaced, Since;
    ListsArePaced(run);
    var ls := Lists(run);
    var i := OperationRefs(ls, j, t);
    TouchedIsSeen(ls, i, j, ls[j].threads[t], n);
    forall u | i <= u <= j ensures Working(run[u].list, t) { assert Working(ls[u], t); }
    StillSeen(run, i, j, t, n);
  }

  lemma TouchedIsSeen(ls: seq<State>, i: nat, j: nat, th: Thread, n: Id)
    requires RefsOK(ls, i, j, th) && Touches(th, n)
    ensures SeenSince(ls, i, j, n)
  {
    hide Since;
    if th.Busy? && th.pc == Search && n == th.pred { SeenOne(ls, i, j, n, th.layer); }
  }

  /** The recycler always takes a node that leaves the list: the thread is ready to hand it over, and nobody has before.
      */
  lemma RecyclerIsReady(run: seq<Joint>, j: nat, t: Tid, s': State, n: Id)
    requires IsJointRun(run) && j < |run| && Step(run[j].list, t, s') && Retires(run[j].list, s', n)
    ensures t in run[j].rec.pcs && run[j].rec.pcs[t].In? && n !in run[j].rec.seers && n !in run[j].rec.place
  {
    hide JointStep, Start, R.Start, Step, IsPaced, Retires, R.Inv;
    ListsArePaced(run);
    PacedInv(Lists(run), j);
    RetiringStep(run[j].list, t, s', n);
    WorkersHold(run, j, t);
    RecyclerInv(run, j);
    SameKeys(run[j].rec);
    if n in run[j].rec.seers {
      var w := Retired(run, j, n);
      RetiredIsGone(Lists(run), w, n);
      GoneForEver(Lists(run), w, j, n);
      NotRetiredTwice(run[j].list, s', n);
      assert false;
    }
  }

  lemma SameKeys(r: R.State)
    requires R.FullInv(r)
    ensures r.place.Keys == r.seers.Keys
  {}

  lemma NotRetiredTwice(s: State, s': State, n: Id)
    requires Gone(s, n)
    ensures !Retires(s, s', n)
  {}
}
