/** Cancellation over whole runs: reference counting, and what callbacks can count on. */
module CancellationRuns {
  import opened Options
  import opened Cancellation
  import opened CancellationInv
  import opened CancellationProofs

  // ---------------------------------------------------------------- tokens and sources

  lemma HandleOps(s: State, s': State)
    requires OpsOK(s) && s' == s.(word := s'.word, tokens := s'.tokens, sources := s'.sources,
        destroyed := s'.destroyed)
    requires forall o :: o in s.ops ==>
        (s.ops[o].Reg? ==> Handle(s.ops[o].handle) in s'.tokens) && (s.ops[o].Req? ==> s.ops[o].source in s'.sources)
    ensures OpsOK(s')
  {
    forall o | o in s'.ops ensures OpOK(s', s'.ops[o]) {
      assert OpOK(s, s.ops[o]);
      FramedOK(s, s', s.ops[o]);
    }
  }

  lemma HandleCbs(s: State, s': State)
    requires CbsOK(s) && s' == s.(word := s'.word, tokens := s'.tokens, sources := s'.sources,
        destroyed := s'.destroyed)
    requires s.sources == {} ==> s'.sources == {}
    ensures CbsOK(s')
  {
    hide Current, NowRunning;
    assert Current(s') == Current(s) && NowRunning(s') == NowRunning(s) by { HandleCurrent(s, s'); }
    forall cb | cb in s'.cbs ensures CbOK(s', cb, s'.cbs[cb]) { assert CbOK(s, cb, s.cbs[cb]); }
  }

  lemma HandleCurrent(s: State, s': State)
    requires s'.active == s.active && s'.ops == s.ops
    ensures Current(s') == Current(s) && NowRunning(s') == NowRunning(s)
  {}

  lemma HandleRefs(s: State, s': State)
    requires RefsOK(s) && s'.ops == s.ops && s'.cbs == s.cbs && forall cb :: Of(cb) in s'.tokens <==> Of(cb) in s.tokens
    ensures RefsOK(s')
  {
    forall cb ensures StillRegistering(s', cb) <==> StillRegistering(s, cb) {}
    hide StillRegistering;
  }

  lemma HandleInv(s: State, s': State)
    requires Inv(s) && s' == s.(word := s'.word, tokens := s'.tokens, sources := s'.sources, destroyed := s'.destroyed)
    requires WordOK(s') && DestroyedOK(s') && (s.sources == {} ==> s'.sources == {})
    requires forall o :: o in s.ops ==>
        (s.ops[o].Reg? ==> Handle(s.ops[o].handle) in s'.tokens) && (s.ops[o].Req? ==> s.ops[o].source in s'.sources)
    requires forall cb :: Of(cb) in s'.tokens <==> Of(cb) in s.tokens
    ensures Inv(s')
  {
    hide WordOK, DestroyedOK, OpsOK, CbsOK, RefsOK, ListOK;
    HandleOps(s, s');
    HandleCbs(s, s');
    HandleRefs(s, s');
    SameList(s, s');
  }

  lemma OpRefs(s: State, o: OpId)
    requires Inv(s) && o in s.ops
    ensures s.ops[o].Reg? ==> Handle(s.ops[o].handle) in s.tokens
    ensures s.ops[o].Req? ==> s.ops[o].source in s.sources
  {
    Facts(s, o);
  }

  lemma HandleStepInv(s: State, n: nat, s': State)
    requires Inv(s) && (NewToken(s, n, s') || NewSource(s, n, s') || DropToken(s, n, s') || DropSource(s, n, s'))
    ensures Inv(s')
  {
    hide Inv, WordOK;
    WordAt(s);
    forall o | o in s.ops ensures (s.ops[o].Reg? ==> Handle(s.ops[o].handle) in s.tokens) &&
        (s.ops[o].Req? ==> s.ops[o].source in s.sources) {
      OpRefs(s, o);
    }
    DropTests(s);
    if NewToken(s, n, s') {
      assert |s'.tokens| == |s.tokens| + 1 && s.tokens + s'.tokens != {};
      NewWord(s, s');
    } else if NewSource(s, n, s') {
      assert |s'.sources| == |s.sources| + 1;
      NewWord(s, s');
    } else if DropToken(s, n, s') {
      assert |s'.tokens| == |s.tokens| - 1;
      DropWord(s, s', 0);
    } else {
      assert |s'.sources| == |s.sources| - 1;
      DropSourceWord(s, s');
    }
    hide WordOK, DestroyedOK;
    HandleInv(s, s');
  }

  lemma WordAt(s: State)
    requires Inv(s)
    ensures WordOK(s) && DestroyedOK(s)
  {}

  lemma NewWord(s: State, s': State)
    requires WordOK(s) && DestroyedOK(s) && RoomFor(s) && (s.tokens != {} || s.sources != {})
    requires s'.requested == s.requested && s'.lock == s.lock && s'.destroyed == s.destroyed &&
        (s'.tokens != {} || s'.sources != {})
    requires || (s'.word == s.word + TOKEN && |s'.tokens| == |s.tokens| + 1 && s'.sources == s.sources)
             || (s'.word == s.word + SOURCE && s'.tokens == s.tokens && |s'.sources| == |s.sources| + 1)
    ensures WordOK(s') && DestroyedOK(s')
  {}

  lemma DropSourceWord(s: State, s': State)
    requires WordOK(s) && DestroyedOK(s) && |s'.sources| == |s.sources| - 1 && s'.tokens == s.tokens &&
        s'.requested == s.requested
    requires s'.lock == s.lock && s'.word == s.word - SOURCE
    requires s'.destroyed == s.destroyed + if s.word < SOURCE + TOKEN then 1 else 0
    ensures WordOK(s') && DestroyedOK(s')
  {
    DropTests(s);
    assert s.sources != {};
    assert |s'.sources| == 0 <==> s'.sources == {};
  }

  // ---------------------------------------------------------------- every run

  lemma StartInv(s: State)
    requires Start(s)
    ensures Inv(s)
  {}

  lemma RegStepInv(s: State, o: OpId, s': State)
    requires Inv(s) && RegStep(s, o, s')
    ensures Inv(s')
  {
    hide Inv, RegLoad, RegCas, RegPush, RegUnlock, BeginReg;
    if RegLoad(s, o, s') { RegLoadInv(s, o, s'); }
    else if RegCas(s, o, s') { RegCasInv(s, o, s'); }
    else if RegPush(s, o, s') { RegPushInv(s, o, s'); }
    else if RegUnlock(s, o, s') { RegUnlockInv(s, o, s'); }
    else { var cb, h, move :| BeginReg(s, o, cb, h, move, s'); BeginRegInv(s, o, cb, h, move, s'); }
  }

  lemma ReqStepInv(s: State, o: OpId, s': State)
    requires Inv(s) && ReqStep(s, o, s')
    ensures Inv(s')
  {
    hide Inv, ReqLoad, ReqCas, ReqName, ReqDequeue, ReqUnlock, ReqRun, ReqReturn, ReqLoad2, ReqCas2, ReqEnd, BeginReq;
    if ReqLoad(s, o, s') { ReqLoadInv(s, o, s'); }
    else if ReqCas(s, o, s') { ReqCasInv(s, o, s'); }
    else if ReqName(s, o, s') { ReqNameInv(s, o, s'); }
    else if ReqDequeue(s, o, s') { ReqDequeueInv(s, o, s'); }
    else if ReqUnlock(s, o, s') { ReqUnlockInv(s, o, s'); }
    else if ReqRun(s, o, s') { ReqRunInv(s, o, s'); }
    else if ReqReturn(s, o, s') { ReqReturnInv(s, o, s'); }
    else if ReqLoad2(s, o, s') || ReqCas2(s, o, s') { ReqLoad2Inv(s, o, s'); }
    else if ReqEnd(s, o, s') { ReqEndInv(s, o, s'); }
    else { var n, t :| BeginReq(s, o, n, t, s'); BeginReqInv(s, o, n, t, s'); }
  }

  lemma RemStepInv(s: State, o: OpId, s': State)
    requires Inv(s) && RemStep(s, o, s')
    ensures Inv(s')
  {
    hide Inv, RemLoad, RemCas, RemUnlink, RemUnlockDec, RemUnlock, RemWho, RemWait, RemDrop, BeginRem;
    if RemLoad(s, o, s') || RemCas(s, o, s') { RemCasInv(s, o, s'); }
    else if RemUnlink(s, o, s') { RemUnlinkInv(s, o, s'); }
    else if RemUnlockDec(s, o, s') || RemDrop(s, o, s') { RemDropInv(s, o, s'); }
    else if RemUnlock(s, o, s') { RemUnlockInv(s, o, s'); }
    else if RemWho(s, o, s') { RemWhoInv(s, o, s'); }
    else if RemWait(s, o, s') { RemWaitInv(s, o, s'); }
    else { var cb, t :| BeginRem(s, o, cb, t, s'); BeginRemInv(s, o, cb, t, s'); }
  }

  lemma StepInv(s: State, s': State)
    requires Inv(s) && Step(s, s')
    ensures Inv(s')
  {
    hide Inv, RegStep, ReqStep, RemStep, NewToken, NewSource, DropToken, DropSource;
    if HandleStep(s, s') {
      var n :| NewToken(s, n, s') || NewSource(s, n, s') || DropToken(s, n, s') || DropSource(s, n, s');
      HandleStepInv(s, n, s');
    } else {
      var o :| RegStep(s, o, s') || ReqStep(s, o, s') || RemStep(s, o, s');
      if RegStep(s, o, s') { RegStepInv(s, o, s'); }
      else if ReqStep(s, o, s') { ReqStepInv(s, o, s'); }
      else { RemStepInv(s, o, s'); }
    }
  }

  lemma {:induction false} RunInv(run: seq<State>, i: nat)
    requires IsRun(run) && i < |run|
    ensures Inv(run[i])
  {
    hide Inv, Start, Step;
    if i == 0 {
      StartInv(run[0]);
    } else {
      RunInv(run, i - 1);
      assert Step(run[i - 1], run[i]);
      StepInv(run[i - 1], run[i]);
    }
  }

  // ---------------------------------------------------------------- what the word means

  /** The packed word always reads back as the real flags and owners, and at most one operation has the lock. */
  lemma WordIsTruth(run: seq<State>, i: nat)
    requires IsRun(run) && i < |run|
    ensures var s := run[i];
      && (Requested(s.word) <==> s.requested) && (IsLocked(s.word) <==> s.lock.Some?)
      && s.word / TOKEN % 0x8000_0000 == |s.tokens| && s.word / SOURCE == |s.sources|
      && (forall o, p :: o in s.ops && p in s.ops && HasLock(s.ops[o]) && HasLock(s.ops[p]) ==> o == p)
      && (IsLocked(s.word) <==> exists o :: o in s.ops && HasLock(s.ops[o]))
  {
    var s := run[i];
    RunInv(run, i);
    assert WordOK(s) && LockOK(s);
    hide Inv, HasLock;
    WordTests(s);
    WordCounts(s);
    if s.lock.Some? { assert s.lock.value in s.ops && HasLock(s.ops[s.lock.value]); }
  }

  lemma WordCounts(s: State)
    requires WordOK(s)
    ensures s.word / TOKEN % 0x8000_0000 == |s.tokens| && s.word / SOURCE == |s.sources|
  {
    var flags := (if s.requested then 1 else 0) + (if s.lock.Some? then LOCKED else 0);
    assert s.word == flags + 8 * |s.tokens| + SOURCE * |s.sources|;
    assert s.word / 8 == |s.tokens| + 0x8000_0000 * |s.sources|;
  }

  /** The state is destroyed once, by the step that takes both counts to zero; then the list is empty, the
      lock is free and no operation is under way. */
  lemma DestroyedByLastOwner(run: seq<State>, i: nat)
    requires IsRun(run) && 0 < i < |run|
    ensures run[i].destroyed <= 1
    ensures run[i].destroyed == run[i - 1].destroyed + 1 <==>
              !(run[i - 1].tokens == {} && run[i - 1].sources == {}) && run[i].tokens == {} && run[i].sources == {}
    ensures run[i].destroyed == 1 ==> run[i].list == [] && !IsLocked(run[i].word) && run[i].ops == map[]
  {
    RunInv(run, i);
    RunInv(run, i - 1);
    var s, prev := run[i], run[i - 1];
    assert DestroyedOK(s) && DestroyedOK(prev);
    if s.destroyed == 1 { NothingLeft(s); }
    assert prev.destroyed != 1 by {
      if prev.destroyed == 1 {
        NothingLeft(prev);
        DeadIsFinal(prev, s);
        assert false;
      }
    }
  }

  /** Every operation under way and every listed callback owns a reference. */
  lemma NothingLeft(s: State)
    requires Inv(s) && s.tokens == {} && s.sources == {}
    ensures s.ops == map[] && s.list == [] && !IsLocked(s.word)
  {
    assert WordOK(s) && LockOK(s) && RefsOK(s) && ListOK(s);
    forall o ensures o !in s.ops {
      if o in s.ops {
        Facts(s, o);
        if s.ops[o].Rem? { RemHasRef(s, o); }
      }
    }
    hide Inv, OpsOK, CbsOK;
    assert s.ops == map[];
    WordTests(s);
    forall cb ensures cb !in s.list {
      assert !StillRegistering(s, cb);
    }
    HasMember(s.list);
  }

  lemma HasMember(list: seq<CbId>)
    ensures list != [] ==> exists cb :: cb in list
  {
    if list != [] { assert list[0] in list; }
  }

  lemma RemHasRef(s: State, o: OpId)
    requires Inv(s) && o in s.ops && s.ops[o].Rem?
    ensures Of(s.ops[o].cb) in s.tokens
  {
    hide WordOK, LockOK, CbsOK, ListOK, DestroyedOK;
    assert OpOK(s, s.ops[o]);
    forall p | p in s.ops && s.ops[p].Reg? ensures s.ops[p].cb != s.ops[o].cb { AloneOn(s, o, p); }
    assert !StillRegistering(s, s.ops[o].cb);
  }

  /** Nobody is left who could do anything. */
  lemma DeadIsFinal(s: State, s': State)
    requires s.ops == map[] && s.tokens == {} && s.sources == {} && s.list == [] && Inv(s)
    ensures !Step(s, s')
  {
    hide WordOK, LockOK, ApartOK, OpsOK, ListOK, DestroyedOK;
    forall cb | cb in s.cbs ensures Registered(s.cbs[cb]) ==> s.cbs[cb].removing {
      assert !StillRegistering(s, cb);
      assert Of(cb) !in s.tokens && CbOK(s, cb, s.cbs[cb]);
    }
  }

  // ---------------------------------------------------------------- what callbacks can count on

  /** A callback runs at most once. */
  lemma RunsAtMostOnce(run: seq<State>, i: nat, cb: CbId)
    requires IsRun(run) && i < |run| && cb in run[i].cbs
    ensures run[i].cbs[cb].runs <= 1
  {
    RunInv(run, i);
    assert CbOK(run[i], cb, run[i].cbs[cb]);
  }

  /** Once the flag is set and the request that set it has returned, every callback that was registered has run
      exactly once, or its destructor took it out of the list first; one that came too late ran inline. */
  lemma RunsExactlyOnce(run: seq<State>, i: nat, cb: CbId)
    requires IsRun(run) && i < |run| && cb in run[i].cbs && run[i].requested && run[i].active.None?
    ensures var c := run[i].cbs[cb];
      && run[i].list == [] && !c.running
      && (c.status.Taken? || c.status.Inline? ==> c.runs == 1)
      && (c.status.Taken? || c.status.Inline? || c.status.Fresh? || (c.status.Unlinked? && c.removing && c.runs == 0))
  {
    RunInv(run, i);
    var s := run[i];
    assert CbOK(s, cb, s.cbs[cb]) && ListOK(s);
    hide Inv, OpsOK;
    UnlinkedIsRemoving(run, i, cb);
  }

  /** How one step may change a callback. */
  ghost predicate Moves(c: Cb, d: Cb) {
    && (c.gone ==> d.gone) && (c.removing ==> d.removing)
    && (d.status == c.status || c.status.Fresh? || (c.status.Listed? &&
        (d.status.Taken? || (d.status.Unlinked? && d.removing))))
    && (c.status.Fresh? ==> !d.status.Unlinked?)
    && (d.runs == c.runs || c.status.Fresh? || (c.status.Taken? && c.runs == 0))
    && (d.inside == c.inside || !c.gone)
    && (d.running ==> c.running || c.runs == 0)
  }

  ghost predicate CallbackMoves(s: State, s': State, cb: CbId) {
    cb in s.cbs ==> cb in s'.cbs && Moves(s.cbs[cb], s'.cbs[cb])
  }

  lemma RegMoves(s: State, o: OpId, s': State, cb: CbId)
    requires Inv(s) && RegStep(s, o, s')
    ensures CallbackMoves(s, s', cb) && (cb in s'.cbs && cb !in s.cbs ==> s'.cbs[cb].status.Fresh?)
  {
    hide Inv, Requested, CanBeCancelled, IsLocked;
    if o in s.ops {
      Facts(s, o);
      if s.ops[o].Reg? && s.ops[o].cb in s.cbs { CbAt(s, s.ops[o].cb); }
    }
  }

  ghost predicate ReqPlain(s: State, o: OpId, s': State) {
    || ReqLoad(s, o, s') || ReqCas(s, o, s') || ReqName(s, o, s') || ReqUnlock(s, o, s')
    || ReqLoad2(s, o, s') || ReqCas2(s, o, s') || ReqEnd(s, o, s')
    || exists n, t :: BeginReq(s, o, n, t, s')
  }

  lemma ReqPlainMoves(s: State, o: OpId, s': State)
    requires ReqPlain(s, o, s')
    ensures s'.cbs == s.cbs && s'.list == s.list && (s.requested ==> s'.requested)
  {
    hide Requested, IsLocked;
  }

  lemma DequeueMoves(s: State, o: OpId, s': State, cb: CbId)
    requires Inv(s) && ReqDequeue(s, o, s')
    ensures CallbackMoves(s, s', cb) && (cb in s'.cbs ==> cb in s.cbs)
  {
    assert ListOK(s);
    hide Inv;
    if s.list != [] {
      assert s.list[0] in s.list;
      CbAt(s, s.list[0]);
    }
    hide ListOK;
  }

  lemma RunMoves(s: State, o: OpId, s': State, cb: CbId)
    requires Inv(s) && (ReqRun(s, o, s') || ReqReturn(s, o, s'))
    ensures CallbackMoves(s, s', cb) && (cb in s'.cbs ==> cb in s.cbs)
  {
    hide Inv, WordOK;
    Facts(s, o);
    CbAt(s, s.ops[o].qpc.cb);
  }

  lemma ReqMoves(s: State, o: OpId, s': State, cb: CbId)
    requires Inv(s) && ReqStep(s, o, s')
    ensures CallbackMoves(s, s', cb) && (cb in s'.cbs ==> cb in s.cbs)
  {
    hide Inv, ReqLoad, ReqCas, ReqName, ReqDequeue, ReqUnlock, ReqRun, ReqReturn, ReqLoad2, ReqCas2, ReqEnd, BeginReq,
        CallbackMoves;
    if ReqDequeue(s, o, s') { DequeueMoves(s, o, s', cb); }
    else if ReqRun(s, o, s') || ReqReturn(s, o, s') { RunMoves(s, o, s', cb); }
    else { ReqPlainMoves(s, o, s'); SameMoves(s, s', cb); }
  }

  ghost predicate RemPlain(s: State, o: OpId, s': State) {
    RemLoad(s, o, s') || RemCas(s, o, s') || RemUnlock(s, o, s') || RemWait(s, o, s')
  }

  lemma RemPlainMoves(s: State, o: OpId, s': State)
    requires RemPlain(s, o, s')
    ensures s'.cbs == s.cbs && s'.list == s.list && s'.requested == s.requested
  {
    hide IsLocked, MayRun;
  }

  lemma RemOwnMoves(s: State, o: OpId, s': State, cb: CbId)
    requires Inv(s) && (RemUnlockDec(s, o, s') || RemWho(s, o, s') || RemDrop(s, o, s'))
    ensures CallbackMoves(s, s', cb) && (cb in s'.cbs ==> cb in s.cbs)
  {
    hide Inv, WordOK, MayRun;
    Facts(s, o);
    CbAt(s, s.ops[o].cb);
  }

  lemma UnlinkMoves(s: State, o: OpId, s': State, cb: CbId)
    requires Inv(s) && RemUnlink(s, o, s')
    ensures CallbackMoves(s, s', cb) && (cb in s'.cbs ==> cb in s.cbs)
  {
    assert ListOK(s);
    hide Inv, WordOK, MayRun, Without;
    Facts(s, o);
    CbAt(s, s.ops[o].cb);
  }

  lemma RemMoves(s: State, o: OpId, s': State, cb: CbId)
    requires Inv(s) && RemStep(s, o, s')
    ensures CallbackMoves(s, s', cb) && (cb in s'.cbs ==> cb in s.cbs)
  {
    hide Inv, RemLoad, RemCas, RemUnlink, RemUnlockDec, RemUnlock, RemWho, RemWait, RemDrop, MayRun, CallbackMoves;
    if RemUnlink(s, o, s') { UnlinkMoves(s, o, s', cb); }
    else if RemUnlockDec(s, o, s') || RemWho(s, o, s') || RemDrop(s, o, s') { RemOwnMoves(s, o, s', cb); }
    else if RemPlain(s, o, s') { RemPlainMoves(s, o, s'); SameMoves(s, s', cb); }
    else {
      var c, t :| BeginRem(s, o, c, t, s');
      BeginRemMoves(s, o, c, t, s', cb);
    }
  }

  lemma BeginRemMoves(s: State, o: OpId, c: CbId, t: Tid, s': State, cb: CbId)
    requires BeginRem(s, o, c, t, s')
    ensures CallbackMoves(s, s', cb) && (cb in s'.cbs ==> cb in s.cbs)
  {
    hide MayRun;
  }

  lemma StepMoves(s: State, s': State, cb: CbId)
    requires Inv(s) && Step(s, s')
    ensures CallbackMoves(s, s', cb) && (cb in s'.cbs && cb !in s.cbs ==> s'.cbs[cb].status.Fresh?)
  {
    hide Inv, RegStep, ReqStep, RemStep, CallbackMoves;
    if HandleStep(s, s') {
      assert s'.cbs == s.cbs;
      SameMoves(s, s', cb);
    } else {
      var o :| RegStep(s, o, s') || ReqStep(s, o, s') || RemStep(s, o, s');
      if RegStep(s, o, s') { RegMoves(s, o, s', cb); }
      else if ReqStep(s, o, s') { ReqMoves(s, o, s', cb); }
      else { RemMoves(s, o, s', cb); }
    }
  }

  lemma SameMoves(s: State, s': State, cb: CbId)
    requires s'.cbs == s.cbs
    ensures CallbackMoves(s, s', cb)
  {}

  lemma {:induction false} UnlinkedIsRemoving(run: seq<State>, i: nat, cb: CbId)
    requires IsRun(run) && i < |run| && cb in run[i].cbs
    ensures run[i].cbs[cb].status.Unlinked? ==> run[i].cbs[cb].removing
  {
    hide Inv, Step;
    if i > 0 {
      RunInv(run, i - 1);
      assert Step(run[i - 1], run[i]);
      StepMoves(run[i - 1], run[i], cb);
      if cb in run[i - 1].cbs { UnlinkedIsRemoving(run, i - 1, cb); }
    }
  }

  /** From the moment the flag is set the list only shrinks. */
  lemma ListOnlyShrinks(run: seq<State>, i: nat)
    requires IsRun(run) && 0 < i < |run| && run[i - 1].requested
    ensures run[i].requested && |run[i].list| <= |run[i - 1].list| &&
        forall cb :: cb in run[i].list ==> cb in run[i - 1].list
  {
    hide Inv, Step;
    RunInv(run, i - 1);
    assert Step(run[i - 1], run[i]);
    ShrinkStep(run[i - 1], run[i]);
  }

  ghost predicate Shrinks(s: State, s': State) {
    s'.requested && |s'.list| <= |s.list| && forall cb :: cb in s'.list ==> cb in s.list
  }

  lemma ShrinkStep(s: State, s': State)
    requires Inv(s) && Step(s, s') && s.requested
    ensures Shrinks(s, s')
  {
    hide Inv, RegStep, ReqStep, RemStep;
    if !HandleStep(s, s') {
      var o :| RegStep(s, o, s') || ReqStep(s, o, s') || RemStep(s, o, s');
      if RegStep(s, o, s') { RegShrinks(s, o, s'); }
      else if ReqStep(s, o, s') { ReqShrinks(s, o, s'); }
      else { RemShrinks(s, o, s'); }
    }
  }

  lemma RegShrinks(s: State, o: OpId, s': State)
    requires Inv(s) && RegStep(s, o, s') && s.requested
    ensures Shrinks(s, s')
  {
    hide Inv, Requested, CanBeCancelled, IsLocked;
    if o in s.ops { Facts(s, o); }
  }

  lemma ReqShrinks(s: State, o: OpId, s': State)
    requires Inv(s) && ReqStep(s, o, s') && s.requested
    ensures Shrinks(s, s')
  {
    hide Inv, Requested, IsLocked;
  }

  lemma RemShrinks(s: State, o: OpId, s': State)
    requires Inv(s) && RemStep(s, o, s') && s.requested
    ensures Shrinks(s, s')
  {
    hide Inv, RemLoad, RemCas, RemUnlink, RemUnlock, RemWait;
    if RemUnlink(s, o, s') { UnlinkShrinks(s, o, s'); }
    else if RemPlain(s, o, s') { RemPlainMoves(s, o, s'); }
    else { RemKeepsList(s, o, s'); }
  }

  lemma UnlinkShrinks(s: State, o: OpId, s': State)
    requires Inv(s) && RemUnlink(s, o, s') && s.requested
    ensures Shrinks(s, s')
  {
    assert ListOK(s);
    hide Inv, Without, MayRun;
    if s.ops[o].cb in s.list { WithoutFacts(s.list, s.ops[o].cb); }
  }

  lemma RemKeepsList(s: State, o: OpId, s': State)
    requires RemUnlockDec(s, o, s') || RemWho(s, o, s') || RemDrop(s, o, s') ||
        exists cb, t :: BeginRem(s, o, cb, t, s')
    ensures s'.list == s.list && s'.requested == s.requested
  {
    hide MayRun;
  }

  /** After removeCallback has returned, unless it was called from inside this very callback, the callback is
      not running and will never run: neither now nor at any later moment. */
  lemma {:induction false} RemovedIsQuiet(run: seq<State>, i: nat, j: nat, cb: CbId)
    requires IsRun(run) && i <= j < |run| && cb in run[i].cbs && run[i].cbs[cb].gone && !run[i].cbs[cb].inside
    ensures cb in run[j].cbs && !run[j].cbs[cb].running && run[j].cbs[cb].runs == run[i].cbs[cb].runs
    ensures run[j].cbs[cb].gone && !run[j].cbs[cb].inside
  {
    hide Inv, Step;
    if i == j {
      RunInv(run, i);
      CbAt(run[i], cb);
    } else {
      RemovedIsQuiet(run, i, j - 1, cb);
      RunInv(run, j - 1);
      RunInv(run, j);
      assert Step(run[j - 1], run[j]);
      CbAt(run[j - 1], cb);
      StepMoves(run[j - 1], run[j], cb);
      CbAt(run[j], cb);
    }
  }
}
