/** What an add that finds the key and a remove that gives up may conclude: their answers were true at some moment
    of the call, with the adds and removes taking effect where the log says. */
module LazyAnswers {
  import opened Options
  import opened LazyHeap
  import opened LazySkipList
  import opened LazyInvariant
  import opened LazyProofs
  import opened LazyTheorems
  import opened LazyReach
  import opened LazyLookups

  ghost predicate HasLiveAt(s: State, k: int) {
    HasLive(s.heap, k)
  }

  /** Thread t is in one add or remove of k from moment i to moment j. */
  ghost predicate InCall(run: seq<State>, t: Tid, i: nat, j: nat, adding: bool, k: int) {
    && i <= j < |run|
    && (forall u :: i <= u <= j ==> t in run[u].threads && run[u].threads[t].Busy?)
    && run[i].threads[t] == Busy(adding, k, ReadMax, NO_FIND, None, 0, 0, 0, 0)
  }

  /** The call returns with the next step. */
  ghost predicate ReturnsNext(run: seq<State>, t: Tid, j: nat) {
    j + 1 < |run| && t in run[j + 1].threads && run[j + 1].threads[t].Idle?
  }

  /** A step touches its own thread only, and a call keeps what it was called for. */
  ghost predicate OwnThread(s: State, t: Tid, s': State) {
    && t in s.threads && t in s'.threads && s'.threads == s.threads[t := s'.threads[t]]
    && (s.threads[t].Busy? && s'.threads[t].Busy? ==>
          s'.threads[t].data == s.threads[t].data && s'.threads[t].adding == s.threads[t].adding)
    && (s'.threads[t].Busy? && s'.threads[t].pc == SeeLinked && s'.threads[t] != s.threads[t] ==> SawUnmarked(s, t, s'))
  }

  /** An add goes on to wait for the node it has found after seeing it unmarked. */
  ghost predicate SawUnmarked(s: State, t: Tid, s': State)
    requires t in s.threads && t in s'.threads && s'.threads[t].Busy?
  {
    && s.threads[t].Busy? && s.threads[t].pc == SeeMarked && s'.heap == s.heap && s'.threads[t].f == s.threads[t].f
    && s.threads[t].f.found.Some? && s.threads[t].f.found.value in s.heap && !s.heap[s.threads[t].f.found.value].marked
  }

  lemma SearchThread(s: State, t: Tid, s': State)
    requires Begin(s, t, s') || DoReadMax(s, t, s') || DoReadHead(s, t, s') || DoSearch(s, t, s')
    ensures OwnThread(s, t, s')
  {
    hide Settle;
  }

  lemma JudgeThread(s: State, t: Tid, s': State)
    requires DoSeeMarked(s, t, s') || DoSeeLinked(s, t, s') || DoOkLinked(s, t, s') || DoOkMarked(s, t, s') ||
        DoLockVictim(s, t, s')
      || DoMarkVictim(s, t, s')
    ensures OwnThread(s, t, s')
  {
    hide Locked;
  }

  lemma LockThread(s: State, t: Tid, s': State)
    requires DoAcquire(s, t, s') || DoValidate(s, t, s') || DoBackoff(s, t, s') || DoUnlock(s, t, s') ||
        DoReleaseVictim(s, t, s')
      || DoCount(s, t, s') || DoGrowMaybe(s, t, s')
    ensures OwnThread(s, t, s')
  {
    hide Locked, Released, Guarded;
  }

  lemma WriteThread(s: State, t: Tid, s': State)
    requires DoCreate(s, t, s') || DoPrepare(s, t, s') || DoLink(s, t, s') || DoAnnounce(s, t, s') || DoUnlink(s, t, s')
    ensures OwnThread(s, t, s')
  {
    hide LinkedHeap, UnlinkedHeap, MadeNode;
  }

  lemma GrowThread(s: State, t: Tid, s': State)
    requires GrowStep(s, t, s')
    ensures OwnThread(s, t, s')
  {
    hide Locked, CopiedHead;
  }

  lemma StepThread(s: State, t: Tid, s': State)
    requires Step(s, t, s')
    ensures OwnThread(s, t, s')
  {
    hide OwnThread, Begin, DoReadMax, DoReadHead, DoSearch, DoSeeMarked, DoSeeLinked, DoOkLinked, DoOkMarked,
        DoLockVictim,
      DoMarkVictim, DoAcquire, DoValidate, DoBackoff, DoCreate, DoPrepare, DoLink, DoAnnounce, DoUnlink, DoCount,
          DoUnlock,
      DoReleaseVictim, DoGrowMaybe, GrowStep;
    if GrowStep(s, t, s') { GrowThread(s, t, s'); }
    else if Begin(s, t, s') || DoReadMax(s, t, s') || DoReadHead(s, t, s') || DoSearch(s, t, s') {
        SearchThread(s, t, s'); }
    else if DoCreate(s, t, s') || DoPrepare(s, t, s') || DoLink(s, t, s') || DoAnnounce(s, t, s') ||
        DoUnlink(s, t, s') {
      WriteThread(s, t, s');
    } else if DoAcquire(s, t, s') || DoValidate(s, t, s') || DoBackoff(s, t, s') || DoUnlock(s, t, s') ||
        DoReleaseVictim(s, t, s')
      || DoCount(s, t, s') || DoGrowMaybe(s, t, s') {
      LockThread(s, t, s');
    } else {
      JudgeThread(s, t, s');
    }
  }

  /** In a run each thread moves by its own step or stays. */
  lemma Moves(run: seq<State>, j: nat, t: Tid)
    requires IsPaced(run) && j + 1 < |run| && t in run[j].threads
    ensures t in run[j + 1].threads
    ensures run[j + 1].threads[t] == run[j].threads[t] || Step(run[j], t, run[j + 1])
  {
    hide Step, Start;
    if run[j + 1] != run[j] {
      assert Next(run[j + 1 - 1], run[j + 1]);
      var u :| Step(run[j], u, run[j + 1]);
      StepThread(run[j], u, run[j + 1]);
    }
  }

  // ---------------------------------------------------------------- an add that finds the key

  /** Some moment from i to j had the key. */
  ghost predicate WasLive(run: seq<State>, i: nat, j: nat, k: int) {
    exists u :: i <= u <= j && u < |run| && HasLiveAt(run[u], k)
  }

  /** The node this add has found is of its key, and it has been live since, or is not announced yet. */
  ghost predicate Awaits(run: seq<State>, i: nat, j: nat, k: int, th: Thread)
    requires j < |run|
  {
    th.Busy? && th.pc == SeeLinked ==>
      && th.f.found.Some? && th.f.found.value in run[j].heap
      && var n := run[j].heap[th.f.found.value];
         n.key == k && !n.isHead && (n.linked ==> WasLive(run, i, j, k))
  }

  lemma AwaitsStays(run: seq<State>, i: nat, j: nat, k: int, th: Thread)
    requires IsPaced(run) && i <= j && j + 1 < |run| && Awaits(run, i, j, k, th)
    ensures Awaits(run, i, j + 1, k, th)
  {
    hide Start, Next;
    if th.Busy? && th.pc == SeeLinked {
      var x := th.f.found.value;
      PacedEvolves(run, j + 1);
      assert EvolvesAt(run[j + 1 - 1].heap, run[j + 1].heap, run[j + 1].head, x);
      if run[j].heap[x].linked {
        var u :| i <= u <= j && u < |run| && HasLiveAt(run[u], k);
        assert HasLiveAt(run[u], k);
      } else if run[j + 1].heap[x].linked {
        PacedInv(run, j);
        MyHeap(run[j]);
        hide Inv;
        assert NodeOK(run[j].heap[x]);
        assert Live(run[j + 1].heap[x]);
        assert HasLiveAt(run[j + 1], k);
      }
    }
  }

  lemma AwaitsMoves(run: seq<State>, t: Tid, i: nat, j: nat, k: int)
    requires IsPaced(run) && i <= j && j + 1 < |run| && t in run[j].threads && t in run[j + 1].threads
    requires Step(run[j], t, run[j + 1]) && Awaits(run, i, j, k, run[j].threads[t])
    requires run[j].threads[t].Busy? ==> run[j].threads[t].data == k
    ensures Awaits(run, i, j + 1, k, run[j + 1].threads[t])
  {
    hide Start, Next, Step;
    var th := run[j + 1].threads[t];
    if th.Busy? && th.pc == SeeLinked {
      PacedInv(run, j);
      StepThread(run[j], t, run[j + 1]);
      if run[j].threads[t] == th {
        AwaitsStays(run, i, j, k, th);
      } else {
        MyBusy(run[j], t);
        hide Inv;
        var x := th.f.found.value;
        if run[j].heap[x].linked {
          assert Live(run[j].heap[x]);
          assert HasLiveAt(run[j], k);
        }
      }
    }
  }

  lemma {:induction false} CallAwaits(run: seq<State>, t: Tid, i: nat, j: nat, adding: bool, k: int)
    requires IsPaced(run) && InCall(run, t, i, j, adding, k)
    ensures Awaits(run, i, j, k, run[j].threads[t]) && run[j].threads[t].data == k && run[j].threads[t].adding == adding
  {
    hide IsPaced, Awaits, Step;
    if i == j {
      NotYet(run, i, k, run[i].threads[t]);
    } else {
      assert InCall(run, t, i, j - 1, adding, k);
      CallAwaits(run, t, i, j - 1, adding, k);
      Moves(run, j - 1, t);
      if Step(run[j - 1], t, run[j]) {
        StepThread(run[j - 1], t, run[j]);
        AwaitsMoves(run, t, i, j - 1, k);
      } else {
        AwaitsStays(run, i, j - 1, k, run[j].threads[t]);
      }
    }
  }

  lemma NotYet(run: seq<State>, i: nat, k: int, th: Thread)
    requires i < |run| && th.Busy? && th.pc == ReadMax
    ensures Awaits(run, i, i, k, th)
  {}

  /** An add that returns because it has found the key: the key was there at some moment of the call. */
  lemma AddFoundIsTrue(run: seq<State>, t: Tid, i: nat, j: nat, k: int)
    requires IsPaced(run) && InCall(run, t, i, j, true, k) && ReturnsNext(run, t, j) &&
        run[j].threads[t].pc == SeeLinked
    ensures exists u :: i <= u <= j && Present(run[u].log, k)
  {
    hide IsPaced, Step, Present;
    CallAwaits(run, t, i, j, true, k);
    Moves(run, j, t);
    SeeLinkedStep(run[j], t, run[j + 1]);
    var u :| i <= u <= j && u < |run| && HasLiveAt(run[u], k);
    LiveIsPresent(run, u, k);
  }

  lemma SeeLinkedStep(s: State, t: Tid, s': State)
    requires Step(s, t, s') && t in s.threads && s.threads[t].Busy? && s.threads[t].pc == SeeLinked
    requires t in s'.threads && s'.threads[t].Idle?
    ensures s.threads[t].f.found.Some? && s.threads[t].f.found.value in s.heap &&
        s.heap[s.threads[t].f.found.value].linked
  {
    hide Settle, Guarded, Released, Locked, LinkedHeap, UnlinkedHeap, MadeNode, CopiedHead;
  }

  lemma LiveIsPresent(run: seq<State>, u: nat, k: int)
    requires IsPaced(run) && u < |run|
    ensures Present(run[u].log, k) <==> HasLiveAt(run[u], k)
  {
    hide Start, Next, Present;
    PacedInv(run, u);
  }

  // ---------------------------------------------------------------- a remove that gives up

  ghost predicate LiveThroughout(run: seq<State>, i: nat, j: nat, x: Id, k: int) {
    forall u :: i <= u <= j && u < |run| ==> x in run[u].heap && Live(run[u].heap[x]) && run[u].heap[x].key == k
  }

  lemma LiveKeeps(run: seq<State>, i: nat, j: nat, x: Id, k: int)
    requires IsPaced(run) && i <= j < |run| && LiveThroughout(run, i, j, x, k)
    ensures KeepsThroughout(run, i, j, x, k)
    ensures forall u :: i <= u <= j ==> run[u].heap[x].layers == run[j].heap[x].height
    ensures run[j].heap[x].height > 0
  {
    hide Start, Next;
    forall u | i <= u <= j ensures Keeps(run[u], x, k) && run[u].heap[x].layers == run[j].heap[x].height > 0 {
      assert Live(run[u].heap[x]);
      PacedInv(run, u);
      MyHeap(run[u]);
      assert NodeOK(run[u].heap[x]);
      PacedNode(run, u, j, x);
    }
  }

  /** Until a remove marks its victim: what it has found so far of a node that is live all the time. */
  ghost predicate OnTrail(run: seq<State>, i: nat, j: nat, x: Id, k: int, th: Thread)
    requires j < |run| && x in run[j].heap
  {
    var top := run[j].heap[x].height - 1;
    && th.Busy? && !th.adding && th.data == k
    && (th.pc != ReadMax ==> top <= th.f.maxLayer)
    && (th.pc == ReadHead ==> th.f.found.None? && th.f.foundLayer == -1)
    && (th.pc == Search ==>
          && Since(run, i, j, th.pred, th.layer) && th.pred in run[j].heap && Below(run[j].heap[th.pred], k)
          && th.layer <= th.f.maxLayer
          && if th.layer < top then th.f.found == Some(x) && th.f.foundLayer == top
             else th.f.found.None? && th.f.foundLayer == -1)
    && (th.pc == ReadMax || th.pc == ReadHead || th.pc == Search || th.pc == OkLinked || th.pc == OkMarked ||
        th.pc == LockVictim
        || th.pc == MarkVictim)
    && (th.pc != MarkVictim ==> th.victim.None?)
    && (th.pc == OkLinked || th.pc == OkMarked || th.pc == LockVictim ==>
        th.f.found == Some(x) && th.f.foundLayer == top)
    && (th.pc == MarkVictim ==> th.victim == Some(x))
  }

  lemma TrailStays(run: seq<State>, i: nat, j: nat, x: Id, k: int, th: Thread)
    requires IsPaced(run) && i <= j && j + 1 < |run| && x in run[j].heap && x in run[j + 1].heap &&
        OnTrail(run, i, j, x, k, th)
    ensures OnTrail(run, i, j + 1, x, k, th)
  {
    hide Start, Next, Since;
    PacedNode(run, j, j + 1, x);
    if th.pc == Search {
      SinceGrows(run, i, j, j + 1, th.pred, th.layer);
      PacedNode(run, j, j + 1, th.pred);
    }
  }

  /** What the search meets next on a layer: x itself on its own layers, something else above them. */
  lemma MeetsX(run: seq<State>, i: nat, j: nat, x: Id, k: int, th: Thread)
    requires IsPaced(run) && i <= j < |run| && LiveThroughout(run, i, j, x, k) && x in run[j].heap
    requires OnTrail(run, i, j, x, k, th) && th.pc == Search
    ensures th.layer < |run[j].heap[th.pred].skip| && run[j].heap[x].height > 0
    ensures var next := run[j].heap[th.pred].skip[th.layer];
      && (next.Some? ==> next.value in run[j].heap && Since(run, i, j, next.value, th.layer))
      && (next.Some? && run[j].heap[next.value].key == k ==> next == Some(x) && th.layer < run[j].heap[x].height)
      && (th.layer < run[j].heap[x].height ==> next.Some? && run[j].heap[next.value].key <= k)
  {
    hide Start, Next, OnTrail;
    TrailSearch(run, i, j, x, k, th);
    var h, l := run[j].heap, th.layer;
    LiveKeeps(run, i, j, x, k);
    Follows(run, i, j, th.pred, l);
    SinceLeadsWell(run, i, j, th.pred, l, x);
    assert Keeps(run[j], x, k) && Live(h[x]);
    var next := h[th.pred].skip[l];
    if next.Some? && h[next.value].key == k {
      OnlyHolder(run, i, j, x, k, next.value, l);
      SinceIsLow(run, i, j, x, l);
    }
    if l < h[x].height {
      forall u | i <= u <= j && u < |run| ensures x in run[u].heap && l < run[u].heap[x].layers {
          assert Keeps(run[u], x, k); }
      assert Throughout(run, i, j, x, l);
    }
  }

  lemma TrailSearch(run: seq<State>, i: nat, j: nat, x: Id, k: int, th: Thread)
    requires j < |run| && x in run[j].heap && OnTrail(run, i, j, x, k, th) && th.pc == Search
    ensures th.Busy? && Since(run, i, j, th.pred, th.layer) && th.pred in run[j].heap && Below(run[j].heap[th.pred], k)
    ensures th.data == k
  {
    hide Since;
  }

  lemma SinceIsLow(run: seq<State>, i: nat, j: nat, x: Id, l: nat)
    requires IsPaced(run) && i <= j < |run| && Since(run, i, j, x, l)
    ensures x in run[j].heap && l < run[j].heap[x].height
  {
    hide IsPaced, Since;
    SinceSeen(run, i, j, x, l);
  }

  lemma TrailSearches(run: seq<State>, t: Tid, i: nat, j: nat, x: Id, k: int)
    requires IsPaced(run) && i <= j && j + 1 < |run| && LiveThroughout(run, i, j + 1, x, k) && x in run[j].heap &&
        x in run[j + 1].heap
    requires t in run[j].threads && OnTrail(run, i, j, x, k, run[j].threads[t]) && DoSearch(run[j], t, run[j + 1])
    ensures t in run[j + 1].threads && OnTrail(run, i, j + 1, x, k, run[j + 1].threads[t])
  {
    hide IsPaced, Since;
    var th := run[j].threads[t];
    assert LiveThroughout(run, i, j, x, k);
    MeetsX(run, i, j, x, k, th);
    var next := run[j].heap[th.pred].skip[th.layer];
    SinceGrows(run, i, j, j + 1, th.pred, th.layer);
    if next.Some? { SinceGrows(run, i, j, j + 1, next.value, th.layer); }
    if th.layer > 0 { SinceBelow(run, i, j + 1, th.pred, th.layer, th.layer - 1); }
    assert run[j + 1].heap == run[j].heap;
    if !(next.Some? && run[j].heap[next.value].key < k) {
      var equal := next.Some? && run[j].heap[next.value].key == k;
      var f := Settle(th, next, equal);
      var top := run[j].heap[x].height - 1;
      assert equal <==> th.layer <= top;
      assert if th.layer <= top then f.found == Some(x) && f.foundLayer == top else f.found.None? && f.foundLayer == -1;
      if th.layer > 0 {
        assert run[j + 1].threads[t] == th.(f := f, layer := th.layer - 1);
      } else {
        assert run[j + 1].threads[t] == th.(f := f, pc := OkLinked);
      }
    }
  }

  lemma TrailMoves(run: seq<State>, t: Tid, i: nat, j: nat, x: Id, k: int)
    requires IsPaced(run) && i <= j && j + 1 < |run| && LiveThroughout(run, i, j + 1, x, k) && x in run[j].heap &&
        x in run[j + 1].heap
    requires t in run[j].threads && OnTrail(run, i, j, x, k, run[j].threads[t]) && Step(run[j], t, run[j + 1])
    ensures t in run[j + 1].threads && OnTrail(run, i, j + 1, x, k, run[j + 1].threads[t])
  {
    hide IsPaced, Since, DoSearch;
    var th := run[j].threads[t];
    assert Live(run[j].heap[x]) && Live(run[j + 1].heap[x]) && run[j].heap[x].key == k;
    if th.pc == Search {
      SearchOnly(run[j], t, run[j + 1]);
      TrailSearches(run, t, i, j, x, k);
    } else if th.pc == ReadHead {
      ReadHeadTrail(run, t, i, j, x, k);
    } else if th.pc == ReadMax {
      TopFits(run, j, x);
      ReadMaxTrail(run, t, i, j, x, k);
    } else {
      OkTrail(run, t, i, j, x, k);
    }
  }

  lemma SearchOnly(s: State, t: Tid, s': State)
    requires Step(s, t, s') && t in s.threads && s.threads[t].Busy? && s.threads[t].pc == Search
    ensures DoSearch(s, t, s')
  {
    hide DoSearch;
  }

  /** A live node is no taller than the head. */
  lemma TopFits(run: seq<State>, j: nat, x: Id)
    requires IsPaced(run) && j < |run| && x in run[j].heap && Live(run[j].heap[x])
    ensures run[j].head in run[j].heap && 0 < run[j].heap[x].height <= run[j].heap[run[j].head].height
  {
    hide Start, Next;
    PacedInv(run, j);
    MyHeap(run[j]);
    hide Inv;
    assert NodeOK(run[j].heap[x]);
  }

  lemma ReadMaxTrail(run: seq<State>, t: Tid, i: nat, j: nat, x: Id, k: int)
    requires j + 1 < |run| && x in run[j].heap && x in run[j + 1].heap && t in run[j].threads &&
        Step(run[j], t, run[j + 1])
    requires OnTrail(run, i, j, x, k, run[j].threads[t]) && run[j].threads[t].pc == ReadMax
    requires run[j].head in run[j].heap && 0 < run[j].heap[x].height <= run[j].heap[run[j].head].height
    ensures t in run[j + 1].threads && OnTrail(run, i, j + 1, x, k, run[j + 1].threads[t])
  {
    hide Since;
    assert DoReadMax(run[j], t, run[j + 1]);
  }

  lemma ReadHeadTrail(run: seq<State>, t: Tid, i: nat, j: nat, x: Id, k: int)
    requires IsPaced(run) && i <= j && j + 1 < |run| && x in run[j].heap && x in run[j + 1].heap && t in run[j].threads
    requires Step(run[j], t, run[j + 1]) && OnTrail(run, i, j, x, k, run[j].threads[t]) &&
        run[j].threads[t].pc == ReadHead
    ensures t in run[j + 1].threads && OnTrail(run, i, j + 1, x, k, run[j + 1].threads[t])
  {
    hide Start, Next, Since;
    var th := run[j].threads[t];
    assert DoReadHead(run[j], t, run[j + 1]);
    PacedInv(run, j);
    MyBusy(run[j], t);
    HeadSince(run, i, j, th.f.maxLayer);
    SinceGrows(run, i, j, j + 1, run[j].head, th.f.maxLayer);
    hide Inv, BusyOK;
  }

  lemma OkTrail(run: seq<State>, t: Tid, i: nat, j: nat, x: Id, k: int)
    requires j + 1 < |run| && x in run[j].heap && x in run[j + 1].heap && t in run[j].threads &&
        Step(run[j], t, run[j + 1])
    requires OnTrail(run, i, j, x, k, run[j].threads[t]) && Live(run[j].heap[x]) && Live(run[j + 1].heap[x])
    requires run[j].threads[t].pc != ReadMax && run[j].threads[t].pc != ReadHead && run[j].threads[t].pc != Search
    ensures t in run[j + 1].threads && OnTrail(run, i, j + 1, x, k, run[j + 1].threads[t])
  {
    hide Since;
    var s, s' := run[j], run[j + 1];
    assert DoOkLinked(s, t, s') || DoOkMarked(s, t, s') || DoLockVictim(s, t, s') || DoMarkVictim(s, t, s');
  }

  lemma {:induction false} CallOnTrail(run: seq<State>, t: Tid, i: nat, j: nat, x: Id, k: int)
    requires IsPaced(run) && i <= j < |run| && LiveThroughout(run, i, j, x, k) && x in run[j].heap
    requires t in run[i].threads && run[i].threads[t] == Busy(false, k, ReadMax, NO_FIND, None, 0, 0, 0, 0)
    ensures t in run[j].threads && OnTrail(run, i, j, x, k, run[j].threads[t])
  {
    hide IsPaced, OnTrail, Step, Live;
    if i == j {
      FirstOnTrail(run, i, x, k, run[i].threads[t]);
    } else {
      assert LiveThroughout(run, i, j - 1, x, k) && x in run[j - 1].heap;
      CallOnTrail(run, t, i, j - 1, x, k);
      Moves(run, j - 1, t);
      if Step(run[j - 1], t, run[j]) { TrailMoves(run, t, i, j - 1, x, k); }
      else { TrailStays(run, i, j - 1, x, k, run[j].threads[t]); }
    }
  }

  lemma FirstOnTrail(run: seq<State>, i: nat, x: Id, k: int, th: Thread)
    requires i < |run| && x in run[i].heap && th == Busy(false, k, ReadMax, NO_FIND, None, 0, 0, 0, 0)
    ensures OnTrail(run, i, i, x, k, th)
  {}

  /** A key that is live all the time is held by one node. */
  lemma {:induction false} SameLive(run: seq<State>, i: nat, j: nat, k: int) returns (x: Id)
    requires IsPaced(run) && i <= j < |run| && forall u :: i <= u <= j ==> HasLiveAt(run[u], k)
    ensures LiveThroughout(run, i, j, x, k)
  {
    hide IsPaced;
    assert HasLiveAt(run[j], k);
    if i == j {
      x :| x in run[j].heap && Live(run[j].heap[x]) && run[j].heap[x].key == k;
    } else {
      x := SameLive(run, i, j - 1, k);
      assert x in run[j - 1].heap && Live(run[j - 1].heap[x]) && run[j - 1].heap[x].key == k;
      var y :| y in run[j].heap && Live(run[j].heap[y]) && run[j].heap[y].key == k;
      LiveNext(run, j, x, y, k);
    }
  }

  lemma LiveNext(run: seq<State>, j: nat, x: Id, y: Id, k: int)
    requires IsPaced(run) && 0 < j < |run| && x in run[j - 1].heap && Live(run[j - 1].heap[x]) &&
        run[j - 1].heap[x].key == k
    requires y in run[j].heap && Live(run[j].heap[y]) && run[j].heap[y].key == k
    ensures x == y
  {
    hide Start, Next;
    PacedInv(run, j - 1);
    MyHeap(run[j - 1]);
    assert NodeOK(run[j - 1].heap[x]);
    PacedEvolves(run, j);
    assert EvolvesAt(run[j - 1].heap, run[j].heap, run[j].head, x);
    PacedInv(run, j);
    MyHeap(run[j]);
    assert NodeOK(run[j].heap[y]);
    hide Inv;
  }

  /** A remove that returns without having removed: the key was absent at some moment of the call. */
  lemma RemoveFailedIsTrue(run: seq<State>, t: Tid, i: nat, j: nat, k: int)
    requires IsPaced(run) && InCall(run, t, i, j, false, k) && ReturnsNext(run, t, j) &&
        run[j].threads[t].pc != ReleaseVictim
    ensures exists u :: i <= u <= j + 1 && !Present(run[u].log, k)
  {
    hide IsPaced, Step, Present, OnTrail, HasLiveAt;
    if forall u :: i <= u <= j + 1 ==> Present(run[u].log, k) {
      forall u | i <= u <= j + 1 ensures HasLiveAt(run[u], k) { LiveIsPresent(run, u, k); }
      var x := SameLive(run, i, j + 1, k);
      assert x in run[j + 1].heap;
      CallOnTrail(run, t, i, j + 1, x, k);
      TrailIsBusy(run, i, j + 1, x, k, run[j + 1].threads[t]);
      assert false;
    }
  }

  lemma TrailIsBusy(run: seq<State>, i: nat, j: nat, x: Id, k: int, th: Thread)
    requires j < |run| && x in run[j].heap && OnTrail(run, i, j, x, k, th)
    ensures th.Busy?
  {}
}
