/** Growing the head, and what all of this means for whole runs: sorted nested layers, alternating adds and
    removes of each key, and no cycle of waiting writers. */
module LazyTheorems {
  import opened Options
  import opened LazyHeap
  import opened LazySkipList
  import opened LazyInvariant
  import opened LazyProofs
  import opened LazyWrites

  // ---------------------------------------------------------------- growHeight

  lemma CopyKeeps(h: Heap, head: Id, t: Tid, th: Thread, n: Id)
    requires HeapOK(h, head) && th.Growing? && th.gpc == GCopy && GrowingOK(h, head, t, th) && n !in h &&
        th.toHeight > |h[th.prior].skip|
    ensures var g := h[n := CopiedHead(h[th.prior], th.toHeight, t)];
            HeapOK(g, head) && GrowingOK(g, head, t, th.(gpc := GCas, taller := n))
  {
    var o := h[th.prior];
    var m := CopiedHead(o, th.toHeight, t);
    assert NodeOK(o);
    forall l | 0 <= l < |m.skip| && m.skip[l].Some? ensures Seen(h, m.skip[l].value, l) && Less(m, h[m.skip[l].value]) {
      assert LinkOK(h, th.prior, l);
    }
    hide HeapOK;
    NewNode(h, head, n, m);
  }

  lemma GCopyInv(s: State, t: Tid, s': State)
    requires Inv(s) && DoGCopy(s, t, s')
    ensures Inv(s')
  {
    hide Inv, HeapOK, LogOK, GrowingOK, HeadsOK, Rely;
    var th := s.threads[t];
    MyGrowing(s, t);
    MyParts(s);
    var n :| n !in s.heap && Write(s, t, th.(gpc := GCas, taller := n),
        s.heap[n := CopiedHead(s.heap[th.prior], th.toHeight, t)], s');
    CopyKeeps(s.heap, s.head, t, th, n);
    LogKept(s.heap, s'.heap, s.log);
    CopyHeads(s.heap, s.head, s.threads, t, th, n);
    forall u | u in s.threads && u != t ensures Rely(s.heap, s.head, s'.heap, s.head, u) {
        NewRely(s.heap, s.head, n, s'.heap[n], u); }
    WriteStep(s, t, s');
  }

  lemma CopyHeads(h: Heap, head: Id, threads: map<Tid, Thread>, t: Tid, th: Thread, n: Id)
    requires HeadsOK(h, head, threads) && t in threads && threads[t] == th && th.Growing? && th.gpc == GCopy && n !in h
    requires th.prior in h && th.toHeight > |h[th.prior].skip|
    ensures HeadsOK(h[n := CopiedHead(h[th.prior], th.toHeight, t)], head, threads[t := th.(gpc := GCas, taller := n)])
  {
    var g, threads' := h[n := CopiedHead(h[th.prior], th.toHeight, t)], threads[t := th.(gpc := GCas, taller := n)];
    forall id | id in g && g[id].isHead && g[id].reached > 0 && id != head ensures g[id].marked ||
        BeingReplaced(g[id], id, threads') {
      assert h[id].marked || BeingReplaced(h[id], id, threads);
    }
  }

  lemma SwapRely(h: Heap, head: Id, taller: Id, t: Tid, u: Tid)
    requires HeapOK(h, head) && taller in h && h[taller].isHead && h[taller].reached == 0 && h[taller].maker == t &&
        u != t
    requires h[head].lock == Some(t) && h[taller].height > h[head].height
    ensures Rely(h, head, h[taller := h[taller].(reached := h[taller].height)], taller, u)
  {
    var g := h[taller := h[taller].(reached := h[taller].height)];
    hide LayersOK, LinksOK, OneOfAKey;
    forall i | i in h ensures i in g && RelyNode(h[i], g[i], u) { assert NodeOK(h[i]); }
  }

  lemma SwapHeads(h: Heap, head: Id, threads: map<Tid, Thread>, t: Tid, th: Thread)
    requires HeadsOK(h, head, threads) && t in threads && threads[t] == th && th.Growing? && th.gpc == GCas &&
        th.prior == head
    requires head in h && th.taller in h && h[head].lock == Some(t)
    ensures HeadsOK(h[th.taller := h[th.taller].(reached := h[th.taller].height)], th.taller,
        threads[t := th.(gpc := GMark)])
  {
    var g, threads' := h[th.taller := h[th.taller].(reached := h[th.taller].height)], threads[t := th.(gpc := GMark)];
    forall id | id in g && g[id].isHead && g[id].reached > 0 && id != th.taller ensures g[id].marked ||
        BeingReplaced(g[id], id, threads') {
      if id != head { assert h[id].marked || BeingReplaced(h[id], id, threads); }
    }
  }

  lemma CasFacts(h: Heap, head: Id, t: Tid, th: Thread)
    requires HeapOK(h, head) && th.Growing? && th.gpc == GCas && GrowingOK(h, head, t, th) && th.prior == head
    ensures head in h && th.taller in h && th.taller != head && h[th.taller].isHead &&
        h[th.taller].height > h[head].height
    ensures h[th.taller].reached == 0 && h[th.taller].maker == t && |h[th.taller].skip| == h[th.taller].height &&
        |h[head].skip| == h[head].height
    ensures forall l :: 0 <= l < h[head].height ==> h[th.taller].skip[l] == h[head].skip[l]
    ensures forall l :: h[head].height <= l < h[th.taller].height ==> h[th.taller].skip[l] == None
  {}

  lemma GCasInv(s: State, t: Tid, s': State)
    requires Inv(s) && DoGCas(s, t, s')
    ensures Inv(s')
  {
    hide Inv, HeapOK, LogOK, HeadsOK, Rely;
    var th := s.threads[t];
    MyGrowing(s, t);
    MyParts(s);
    OwnedBy(s, t, th.prior);
    if s.head == th.prior {
      CasFacts(s.heap, s.head, t, th);
      hide CopyOK;
      SwapHeadKeeps(s.heap, s.head, th.taller);
      LogKept(s.heap, s'.heap, s.log);
      SwapHeads(s.heap, s.head, s.threads, t, th);
      forall u | u in s.threads && u != t ensures Rely(s.heap, s.head, s'.heap, s'.head, u) {
          SwapRely(s.heap, s.head, th.taller, t, u); }
      WriteStep(s, t, s');
    } else {
      hide CopyOK;
      ReadStep(s, t, th.(gpc := GRelease), s');
    }
  }

  lemma MarkHeads(h: Heap, head: Id, threads: map<Tid, Thread>, t: Tid, th: Thread)
    requires HeadsOK(h, head, threads) && t in threads && threads[t] == th && th.Growing? && th.gpc == GMark &&
        th.prior in h
    ensures HeadsOK(h[th.prior := h[th.prior].(marked := true)], head, threads[t := th.(gpc := GRelease)])
  {
    var g, threads' := h[th.prior := h[th.prior].(marked := true)], threads[t := th.(gpc := GRelease)];
    forall id | id in g && g[id].isHead && g[id].reached > 0 && id != head ensures g[id].marked ||
        BeingReplaced(g[id], id, threads') {
      if id != th.prior { assert h[id].marked || BeingReplaced(h[id], id, threads); }
    }
  }

  lemma GMarkInv(s: State, t: Tid, s': State)
    requires Inv(s) && DoGMark(s, t, s')
    ensures Inv(s')
  {
    hide Inv, HeapOK, LogOK, HeadsOK, Rely;
    var th := s.threads[t];
    MyGrowing(s, t);
    MyParts(s);
    OwnedBy(s, t, th.prior);
    MarkKeeps(s.heap, s.head, th.prior);
    LogKept(s.heap, s'.heap, s.log);
    MarkHeads(s.heap, s.head, s.threads, t, th);
    forall u | u in s.threads && u != t ensures Rely(s.heap, s.head, s'.heap, s.head, u) {
        MarkRely(s.heap, s.head, th.prior, t, u); }
    WriteStep(s, t, s');
  }

  // ---------------------------------------------------------------- every run

  lemma StartInv(s: State)
    requires Start(s)
    ensures Inv(s)
  {
    var height: nat, maker :| height > 0 && s.head == 0 && s.heap == map[0 := FirstHead(height, maker)];
    forall t | t in s.threads ensures Local(s.heap, s.head, t, s.threads[t]) { IdleLocal(s.heap, s.head, t); }
    forall k ensures !HasLive(s.heap, k) {}
  }

  lemma StepInv(s: State, t: Tid, s': State)
    requires Inv(s) && Step(s, t, s')
    ensures Inv(s')
  {
    hide Inv, Begin, DoReadMax, DoReadHead, DoSearch, DoSeeMarked, DoSeeLinked, DoOkLinked, DoOkMarked, DoLockVictim,
        DoMarkVictim,
      DoAcquire, DoValidate, DoBackoff, DoCreate, DoPrepare, DoLink, DoAnnounce, DoUnlink, DoCount, DoUnlock,
          DoReleaseVictim,
      DoGrowMaybe, DoGRead, DoGLock, DoGCopy, DoGCas, DoGMark, DoGRelease;
    if Begin(s, t, s') { BeginInv(s, t, s'); }
    else if DoReadMax(s, t, s') { ReadMaxInv(s, t, s'); }
    else if DoReadHead(s, t, s') { ReadHeadInv(s, t, s'); }
    else if DoSearch(s, t, s') { SearchInv(s, t, s'); }
    else if DoSeeMarked(s, t, s') || DoSeeLinked(s, t, s') { SeeInv(s, t, s'); }
    else if DoOkLinked(s, t, s') || DoOkMarked(s, t, s') { OkInv(s, t, s'); }
    else if DoLockVictim(s, t, s') { LockVictimInv(s, t, s'); }
    else if DoMarkVictim(s, t, s') { MarkVictimInv(s, t, s'); }
    else if DoAcquire(s, t, s') { AcquireInv(s, t, s'); }
    else if DoValidate(s, t, s') { ValidateInv(s, t, s'); }
    else if DoBackoff(s, t, s') { BackoffInv(s, t, s'); }
    else if DoCreate(s, t, s') { CreateInv(s, t, s'); }
    else if DoPrepare(s, t, s') { PrepareInv(s, t, s'); }
    else if DoLink(s, t, s') { LinkInv(s, t, s'); }
    else if DoAnnounce(s, t, s') { AnnounceInv(s, t, s'); }
    else if DoUnlink(s, t, s') { UnlinkInv(s, t, s'); }
    else if DoCount(s, t, s') { CountInv(s, t, s'); }
    else if DoUnlock(s, t, s') { UnlockInv(s, t, s'); }
    else if DoReleaseVictim(s, t, s') { ReleaseVictimInv(s, t, s'); }
    else if DoGrowMaybe(s, t, s') { GrowMaybeInv(s, t, s'); }
    else { GrowStepInv(s, t, s'); }
  }

  lemma GrowStepInv(s: State, t: Tid, s': State)
    requires Inv(s) && GrowStep(s, t, s')
    ensures Inv(s')
  {
    hide Inv, DoGRead, DoGLock, DoGCopy, DoGCas, DoGMark, DoGRelease;
    if DoGRead(s, t, s') { GReadInv(s, t, s'); }
    else if DoGLock(s, t, s') { GLockInv(s, t, s'); }
    else if DoGCopy(s, t, s') { GCopyInv(s, t, s'); }
    else if DoGCas(s, t, s') { GCasInv(s, t, s'); }
    else if DoGMark(s, t, s') { GMarkInv(s, t, s'); }
    else { GReleaseInv(s, t, s'); }
  }

  lemma {:induction false} RunInv(run: seq<State>)
    requires IsRun(run)
    ensures Inv(run[|run| - 1])
  {
    hide Inv, Start, Step;
    if |run| == 1 {
      StartInv(run[0]);
    } else {
      var n := |run| - 1;
      RunInv(run[..n]);
      assert Next(run[n - 1], run[n]);
      var t :| Step(run[n - 1], t, run[n]);
      StepInv(run[n - 1], t, run[n]);
    }
  }

  // ---------------------------------------------------------------- the layers, walked from the head

  /** ids is what one gets by following the links of layer l from the head to the end. */
  ghost predicate IsLayer(s: State, l: nat, ids: seq<Id>) {
    && |ids| > 0 && ids[0] == s.head
    && (forall i :: 0 <= i < |ids| ==> ids[i] in s.heap && l < |s.heap[ids[i]].skip|)
    && (forall i :: 0 <= i < |ids| ==> s.heap[ids[i]].skip[l] == if i + 1 < |ids| then Some(ids[i + 1]) else None)
  }

  lemma {:induction false} WalkStaysInLayer(s: State, l: nat, ids: seq<Id>, i: nat)
    requires Inv(s) && IsLayer(s, l, ids) && i < |ids|
    ensures InLayer(s.heap, s.head, ids[i], l) && (i > 0 ==> !s.heap[ids[i]].isHead)
  {
    MyHeap(s);
    hide Inv;
    if i == 0 {
      assert NodeOK(s.heap[s.head]);
    } else {
      WalkStaysInLayer(s, l, ids, i - 1);
      assert IsSucc(s.heap, ids[i - 1], l, s.heap[ids[i - 1]].skip[l]);
      assert NodeOK(s.heap[ids[i]]);
    }
  }

  lemma {:induction false} WalkAscends(s: State, l: nat, ids: seq<Id>, i: nat, j: nat)
    requires Inv(s) && IsLayer(s, l, ids) && i < j < |ids|
    ensures Less(s.heap[ids[i]], s.heap[ids[j]])
  {
    WalkStaysInLayer(s, l, ids, j - 1);
    MyHeap(s);
    hide Inv;
    assert IsSucc(s.heap, ids[j - 1], l, s.heap[ids[j - 1]].skip[l]);
    if i < j - 1 { WalkAscends(s, l, ids, i, j - 1); }
  }

  /** Nothing linked at the layer is missed by the walk. */
  lemma {:induction false} WalkMissesNothing(s: State, l: nat, ids: seq<Id>, m: Id, i: nat)
    requires Inv(s) && IsLayer(s, l, ids) && m in s.heap && l < s.heap[m].layers && i < |ids|
    requires Less(s.heap[ids[i]], s.heap[m])
    ensures m in ids
    decreases |ids| - i
  {
    hide Inv, Less, HeapOK;
    WalkStaysInLayer(s, l, ids, i);
    MyHeap(s);
    OnTheWay(s.heap, s.head, ids[i], l, m);
    LayerLink(s, l, ids, i);
    if ids[i + 1] != m { WalkMissesNothing(s, l, ids, m, i + 1); }
  }

  lemma LayerLink(s: State, l: nat, ids: seq<Id>, i: nat)
    requires IsLayer(s, l, ids) && i < |ids|
    ensures s.heap[ids[i]].skip[l] == if i + 1 < |ids| then Some(ids[i + 1]) else None
  {}

  /** The next node of a layer is the one looked for or still before it. */
  lemma OnTheWay(h: Heap, head: Id, id: Id, l: nat, m: Id)
    requires HeapOK(h, head) && InLayer(h, head, id, l) && m in h && l < h[m].layers && Less(h[id], h[m])
    ensures l < |h[id].skip| && h[id].skip[l].Some? && h[id].skip[l].value in h
    ensures h[id].skip[l].value == m || Less(h[h[id].skip[l].value], h[m])
  {
    assert NodeOK(h[id]) && NodeOK(h[m]);
    assert IsSucc(h, id, l, h[id].skip[l]);
    assert NodeOK(h[h[id].skip[l].value]);
  }

  /** The nodes of layer l to the right of id. */
  ghost function After(h: Heap, l: nat, id: Id): set<Id>
    requires id in h
  {
    set m | m in h && l < h[m].layers && Less(h[id], h[m])
  }

  /** Every layer is a finite walk: the links from the head lead to the end. */
  lemma {:induction false} WalkEnds(s: State, l: nat, ids: seq<Id>) returns (full: seq<Id>)
    requires Inv(s) && |ids| > 0 && ids[0] == s.head && l < s.heap[s.head].height
    requires forall i :: 0 <= i < |ids| ==>
        ids[i] in s.heap && l < |s.heap[ids[i]].skip| && InLayer(s.heap, s.head, ids[i], l)
    requires forall i :: 0 <= i < |ids| - 1 ==> s.heap[ids[i]].skip[l] == Some(ids[i + 1])
    ensures IsLayer(s, l, full)
    decreases |After(s.heap, l, ids[|ids| - 1])|
  {
    MyHeap(s);
    hide Inv;
    var last := ids[|ids| - 1];
    var next := s.heap[last].skip[l];
    assert IsSucc(s.heap, last, l, next);
    if next.None? {
      full := ids;
    } else {
      var x := next.value;
      assert NodeOK(s.heap[x]);
      assert x in After(s.heap, l, last) && x !in After(s.heap, l, x);
      assert After(s.heap, l, x) < After(s.heap, l, last);
      SmallerSet(After(s.heap, l, x), After(s.heap, l, last));
      full := WalkEnds(s, l, ids + [x]);
    }
  }

  /** In every reachable state the links of a layer lead from the head to the end, past every node linked there. */
  lemma LayersAreWhole(run: seq<State>, l: nat) returns (ids: seq<Id>)
    requires IsRun(run)
    ensures var s := run[|run| - 1];
      && s.head in s.heap
      && (l < s.heap[s.head].height ==>
          IsLayer(s, l, ids) && forall m :: m in s.heap && l < s.heap[m].layers ==> m in ids)
  {
    var s := run[|run| - 1];
    RunInv(run);
    MyHeap(s);
    hide Inv;
    ids := [];
    if l < s.heap[s.head].height {
      assert NodeOK(s.heap[s.head]);
      ids := WalkEnds(s, l, [s.head]);
      forall m | m in s.heap && l < s.heap[m].layers ensures m in ids {
        assert NodeOK(s.heap[m]);
        WalkMissesNothing(s, l, ids, m, 0);
      }
    }
  }

  lemma SmallerSet(a: set<Id>, b: set<Id>)
    requires a < b
    ensures |a| < |b|
  {
    var x :| x in b && x !in a;
    var b' := b - {x};
    assert a <= b';
    SubsetSize(a, b');
  }

  lemma {:induction false} SubsetSize(a: set<Id>, b: set<Id>)
    requires a <= b
    ensures |a| <= |b|
  {
    if a != {} {
      var x :| x in a;
      SubsetSize(a - {x}, b - {x});
    }
  }

  /** In every reachable state each layer is strictly sorted, and what is on a layer is on the layer below. */
  lemma LayersSortedAndNested(run: seq<State>, l: nat, upper: seq<Id>, lower: seq<Id>)
    requires IsRun(run) && IsLayer(run[|run| - 1], l + 1, upper) && IsLayer(run[|run| - 1], l, lower)
    ensures var h := run[|run| - 1].heap;
      && (forall i, j :: 0 <= i < j < |lower| ==> Less(h[lower[i]], h[lower[j]]))
      && (forall i :: 0 < i < |lower| ==> !h[lower[i]].isHead)
      && (forall i, j :: 0 <= i < j < |upper| ==> Less(h[upper[i]], h[upper[j]]))
      && (forall i :: 0 <= i < |upper| ==> upper[i] in lower)
  {
    var s := run[|run| - 1];
    RunInv(run);
    hide Inv;
    forall i, j | 0 <= i < j < |lower| ensures Less(s.heap[lower[i]], s.heap[lower[j]]) {
        WalkAscends(s, l, lower, i, j); }
    forall i | 0 < i < |lower| ensures !s.heap[lower[i]].isHead { WalkStaysInLayer(s, l, lower, i); }
    forall i, j | 0 <= i < j < |upper| ensures Less(s.heap[upper[i]], s.heap[upper[j]]) {
        WalkAscends(s, l + 1, upper, i, j); }
    forall i | 0 <= i < |upper| ensures upper[i] in lower {
      WalkStaysInLayer(s, l + 1, upper, i);
      if i > 0 {
        WalkStaysInLayer(s, l, lower, 0);
        WalkAscends(s, l + 1, upper, 0, i);
        WalkMissesNothing(s, l, lower, upper[i], 0);
      }
    }
  }

  /** The successful adds and removes of every key take turns, beginning with an add. */
  lemma AddsAndRemovesAlternate(run: seq<State>, i: nat)
    requires IsRun(run) && i < |run[|run| - 1].log|
    ensures var log := run[|run| - 1].log; log[i].Added? <==> !Present(log[..i], log[i].key)
  {
    RunInv(run);
  }

  /** The bottom layer read as a set: a key counts as present exactly if a linked, unmarked node holds it,
      and then that node is on every layer below its height. */
  lemma PresentMeansLinked(run: seq<State>, k: int)
    requires IsRun(run)
    ensures var s := run[|run| - 1];
      && (Present(s.log, k) <==> exists id :: id in s.heap && Live(s.heap[id]) && s.heap[id].key == k)
      && forall id :: id in s.heap && Live(s.heap[id]) ==> s.heap[id].layers == s.heap[id].height
  {
    var s := run[|run| - 1];
    RunInv(run);
    MyHeap(s);
    assert Present(s.log, k) <==> HasLive(s.heap, k);
    forall id | id in s.heap && Live(s.heap[id]) ensures s.heap[id].layers == s.heap[id].height {
        assert NodeOK(s.heap[id]); }
  }

  // ---------------------------------------------------------------- waiting

  /** The node whose lock the thread is about to take, if its next step is a lock operation. */
  function WaitsFor(th: Thread): Option<Id> {
    if th.Busy? && th.pc == LockVictim then th.f.found
    else if th.Busy? && th.pc == Acquire && NeedsLock(th) then Some(th.f.preds[th.layer])
    else if th.Growing? && th.gpc == GLock then Some(th.prior)
    else None
  }

  /** A thread only ever waits for a node below everything it holds. */
  lemma WaitsBelowHeld(s: State, t: Tid, id: Id)
    requires Inv(s) && t in s.threads && WaitsFor(s.threads[t]).Some? && id in Held(s.threads[t])
    ensures WaitsFor(s.threads[t]).value in s.heap && id in s.heap &&
        Less(s.heap[WaitsFor(s.threads[t]).value], s.heap[id])
  {
    var th := s.threads[t];
    hide Inv, HeapOK;
    OwnedBy(s, t, id);
    if th.Busy? && th.pc == LockVictim {
      MyBusy(s, t);
      NoGuards(th);
      assert false;
    } else if th.Busy? {
      MyBusy(s, t);
      AcquireBelow(s.heap, s.head, t, th, id);
    }
  }

  lemma AcquireBelow(h: Heap, head: Id, t: Tid, th: Thread, id: Id)
    requires th.Busy? && th.pc == Acquire && BusyOK(h, head, t, th) && NeedsLock(th) && id in Held(th) && id in h
    ensures th.f.preds[th.layer] in h && Less(h[th.f.preds[th.layer]], h[id])
  {
    SettledAt(h, th.data, th.f, 0, th.layer);
    if id in Guarded(th) {
      var j :| 0 <= j < th.layer && j in th.f.preds && th.f.preds[j] == id;
      var l := th.layer - 1;
      SettledAt(h, th.data, th.f, 0, l);
      assert Descends(h, PredAt(th.f, l), PredAt(th.f, th.layer));
      if j < l { assert Descends(h, PredAt(th.f, j), PredAt(th.f, l)); }
    } else {
      assert VictimOK(h, th);
    }
  }

  /** ts wait in a circle: each for a lock the next one holds. */
  ghost predicate WaitingCycle(s: State, ts: seq<Tid>) {
    |ts| > 0 && forall i :: 0 <= i < |ts| ==> Blocks(s, ts[i], ts[if i + 1 < |ts| then i + 1 else 0])
  }

  ghost predicate Blocks(s: State, t: Tid, u: Tid) {
    && t in s.threads && WaitsFor(s.threads[t]).Some?
    && WaitsFor(s.threads[t]).value in s.heap && s.heap[WaitsFor(s.threads[t]).value].lock == Some(u)
  }

  /** u waits for a node strictly below the one t waits for. */
  ghost predicate WaitsLower(s: State, u: Tid, t: Tid) {
    && t in s.threads && u in s.threads && WaitsFor(s.threads[t]).Some? && WaitsFor(s.threads[u]).Some?
    && WaitsFor(s.threads[t]).value in s.heap && WaitsFor(s.threads[u]).value in s.heap
    && Less(s.heap[WaitsFor(s.threads[u]).value], s.heap[WaitsFor(s.threads[t]).value])
  }

  lemma BlockDescends(s: State, t: Tid, u: Tid, v: Tid)
    requires Inv(s) && Blocks(s, t, u) && Blocks(s, u, v)
    ensures WaitsLower(s, u, t)
  {
    hide Inv, Held, WaitsFor;
    OwnLocks(s, u, WaitsFor(s.threads[t]).value);
    WaitsBelowHeld(s, u, WaitsFor(s.threads[t]).value);
  }

  lemma {:induction false} CycleDescends(s: State, ts: seq<Tid>, i: nat)
    requires Inv(s) && WaitingCycle(s, ts) && 0 < i < |ts|
    ensures WaitsLower(s, ts[i], ts[0])
  {
    hide Inv, WaitsFor;
    assert Blocks(s, ts[i - 1], ts[i]) && Blocks(s, ts[i], ts[if i + 1 < |ts| then i + 1 else 0]) &&
        Blocks(s, ts[0], ts[if 1 < |ts| then 1 else 0]);
    BlockDescends(s, ts[i - 1], ts[i], ts[if i + 1 < |ts| then i + 1 else 0]);
    if i > 1 { CycleDescends(s, ts, i - 1); }
  }

  /** No reachable state has a cycle of waiting threads. */
  lemma NoDeadlock(run: seq<State>, ts: seq<Tid>)
    requires IsRun(run)
    ensures !WaitingCycle(run[|run| - 1], ts)
  {
    var s := run[|run| - 1];
    RunInv(run);
    hide Inv, WaitsFor;
    if WaitingCycle(s, ts) {
      var n := |ts| - 1;
      assert Blocks(s, ts[n], ts[0]) && Blocks(s, ts[0], ts[if 1 < |ts| then 1 else 0]);
      BlockDescends(s, ts[n], ts[0], ts[if 1 < |ts| then 1 else 0]);
      if n > 0 { CycleDescends(s, ts, n); }
      assert false;
    }
  }
}
