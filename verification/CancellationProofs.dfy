/** Every step keeps the invariant of a CancellationState, and what follows for whole runs. */
module CancellationProofs {
  import opened Options
  import opened Cancellation
  import opened CancellationInv

  /** What the other operations see: their callbacks, their references, the flag, the list. */
  ghost predicate SameForOps(s: State, s': State, o: OpId) {
    forall p :: p in s.ops && p != o ==> p in s'.ops && s'.ops[p] == s.ops[p] && Framed(s, s', s.ops[p])
  }

  ghost predicate Framed(s: State, s': State, op: Op) {
    match op
    case Reg(cb, h, _, pc) =>
      && Handle(h) in s'.tokens && cb in s'.cbs && cb in s.cbs && s'.cbs[cb] == s.cbs[cb]
      && (pc.RPush? || pc.RUnlock? ==> s'.requested == s.requested)
    case Rem(cb, _, _) => cb in s'.cbs && cb in s.cbs && s'.cbs[cb] == s.cbs[cb]
    case Req(n, _, pc) =>
      && n in s'.sources && (s.requested ==> s'.requested) &&
          (Signalling(op) && s.signaller.Some? ==> s'.signaller == s.signaller)
      && (pc.QEnd? ==> |s'.list| <= |s.list|)
      && (pc.QUnlock? || pc.QRun? || pc.QRunning? ==>
          |s'.list| <= |s.list| && pc.cb in s'.cbs && pc.cb in s.cbs && s'.cbs[pc.cb] == s.cbs[pc.cb])
  }

  lemma FramedOK(s: State, s': State, op: Op)
    requires OpOK(s, op) && Framed(s, s', op)
    ensures OpOK(s', op)
  {}

  lemma OpsKept(s: State, s': State, o: OpId)
    requires OpsOK(s) && SameForOps(s, s', o) && s'.ops.Keys <= s.ops.Keys + {o} &&
        (o in s'.ops ==> OpOK(s', s'.ops[o]))
    ensures OpsOK(s')
  {
    forall p | p in s'.ops ensures OpOK(s', s'.ops[p]) {
      if p != o { FramedOK(s, s', s.ops[p]); }
    }
  }

  /** An operation moves on to another step on the same callback and the same handle. */
  ghost predicate SameJob(a: Op, b: Op) {
    CbOf(b) == CbOf(a) && (b.Reg? <==> a.Reg?) && (b.Reg? ==> b.handle == a.handle && b.move == a.move)
  }

  lemma ApartKept(s: State, s': State, o: OpId)
    requires ApartOK(s) && o in s.ops && o in s'.ops && s'.ops == s.ops[o := s'.ops[o]] && SameJob(s.ops[o], s'.ops[o])
    ensures ApartOK(s')
  {
    forall p, q | p in s'.ops && q in s'.ops && p != q ensures Apart(s'.ops[p], s'.ops[q]) {
      assert Apart(s.ops[p], s.ops[q]);
    }
  }

  lemma LockKept(s: State, s': State, o: OpId)
    requires LockOK(s) && o in s.ops && o in s'.ops && s'.ops == s.ops[o := s'.ops[o]] && s'.active == s.active
    requires HasLock(s'.ops[o]) <==> s'.lock == Some(o)
    requires s'.lock == s.lock || (s.lock.None? && s'.lock == Some(o)) || (s.lock == Some(o) && s'.lock.None?)
    requires Signalling(s'.ops[o]) == Signalling(s.ops[o])
    ensures LockOK(s')
  {
    hide HasLock, Signalling;
  }

  lemma CbsKept(s: State, s': State)
    requires CbsOK(s) && s'.cbs == s.cbs && s'.requested == s.requested && s'.sources == s.sources
    requires Current(s') == Current(s) && NowRunning(s') == NowRunning(s)
    ensures CbsOK(s')
  {
    hide Current, NowRunning;
    forall cb | cb in s'.cbs ensures CbOK(s', cb, s'.cbs[cb]) { assert CbOK(s, cb, s.cbs[cb]); }
  }

  lemma RefsKept(s: State, s': State, o: OpId)
    requires RefsOK(s) && o in s.ops && o in s'.ops && s'.ops == s.ops[o := s'.ops[o]] && SameJob(s.ops[o], s'.ops[o])
    requires s'.cbs == s.cbs && s'.tokens == s.tokens
    ensures RefsOK(s')
  {
    RegisteringSame(s, s', o);
    hide StillRegistering;
  }

  /** A step that moves one operation on and changes the word and the lock at most. */
  lemma OpStep(s: State, o: OpId, s': State)
    requires Inv(s) && o in s.ops && o in s'.ops && s' == SetOp(s, o, s'.ops[o]).(word := s'.word, lock := s'.lock) &&
        WordOK(s')
    requires HasLock(s'.ops[o]) <==> s'.lock == Some(o)
    requires s'.lock == s.lock || (s.lock.None? && s'.lock == Some(o)) || (s.lock == Some(o) && s'.lock.None?)
    requires SameJob(s.ops[o], s'.ops[o]) && Signalling(s'.ops[o]) == Signalling(s.ops[o])
    requires Current(s') == Current(s) && NowRunning(s') == NowRunning(s) && OpOK(s', s'.ops[o])
    ensures Inv(s')
  {
    hide LockOK, ApartOK, OpsOK, CbsOK, RefsOK, DestroyedOK, ListOK, WordOK, OpOK, Current, NowRunning, SameJob,
        HasLock, Signalling;
    LockKept(s, s', o);
    ApartKept(s, s', o);
    SameOps(s, s', o);
    OpsKept(s, s', o);
    CbsKept(s, s');
    RefsKept(s, s', o);
    SameList(s, s');
    SameRefs(s, s');
  }

  lemma SameOps(s: State, s': State, o: OpId)
    requires OpsOK(s) && o in s.ops && o in s'.ops && s' == SetOp(s, o, s'.ops[o]).(word := s'.word, lock := s'.lock)
    ensures SameForOps(s, s', o)
  {
    forall p | p in s.ops && p != o ensures p in s'.ops && s'.ops[p] == s.ops[p] && Framed(s, s', s.ops[p]) {
      assert OpOK(s, s.ops[p]);
    }
  }

  lemma SameWord(s: State, s': State)
    requires WordOK(s) && s'.word == s.word && s'.requested == s.requested && s'.lock == s.lock &&
        s'.tokens == s.tokens && s'.sources == s.sources
    ensures WordOK(s')
  {}

  lemma SameList(s: State, s': State)
    requires ListOK(s) && s'.list == s.list && s'.cbs == s.cbs && s'.requested == s.requested && s'.active == s.active
    ensures ListOK(s')
  {}

  lemma SameRefs(s: State, s': State)
    requires DestroyedOK(s) && s'.destroyed == s.destroyed && s'.tokens == s.tokens && s'.sources == s.sources
    ensures DestroyedOK(s')
  {}

  lemma RegisteringSame(s: State, s': State, o: OpId)
    requires o in s.ops && o in s'.ops && s'.ops == s.ops[o := s'.ops[o]] && CbOf(s'.ops[o]) == CbOf(s.ops[o]) &&
        (s'.ops[o].Reg? <==> s.ops[o].Reg?)
    ensures forall cb :: StillRegistering(s', cb) <==> StillRegistering(s, cb)
  {
    forall cb ensures StillRegistering(s', cb) <==> StillRegistering(s, cb) {
      if StillRegistering(s, cb) { var p :| p in s.ops && s.ops[p].Reg? && s.ops[p].cb == cb; assert s'.ops[p].Reg? &&
          s'.ops[p].cb == cb; }
      if StillRegistering(s', cb) { var p :| p in s'.ops && s'.ops[p].Reg? && s'.ops[p].cb == cb;
          assert s.ops[p].Reg? && s.ops[p].cb == cb; }
    }
  }

  lemma Facts(s: State, o: OpId)
    requires Inv(s) && o in s.ops
    ensures OpOK(s, s.ops[o]) && WordOK(s) && (HasLock(s.ops[o]) <==> s.lock == Some(o)) &&
        (Signalling(s.ops[o]) <==> s.active == Some(o))
  {
    hide OpOK, HasLock, Signalling;
  }

  // ---------------------------------------------------------------- steps on the word and the lock only

  lemma CbAt(s: State, cb: CbId)
    requires Inv(s) && cb in s.cbs
    ensures CbOK(s, cb, s.cbs[cb])
  {
    hide CbOK;
  }

  lemma LockWord(s: State, s': State)
    requires WordOK(s) && s.lock.None? && s'.lock.Some? && s'.word == s.word + LOCKED
    requires s'.requested == s.requested && s'.tokens == s.tokens && s'.sources == s.sources
    ensures WordOK(s')
  {}

  lemma UnlockWord(s: State, s': State)
    requires WordOK(s) && s.lock.Some? && s'.lock.None? && s'.word == s.word - LOCKED
    requires s'.requested == s.requested && s'.tokens == s.tokens && s'.sources == s.sources
    ensures WordOK(s')
  {}

  lemma RegCasInv(s: State, o: OpId, s': State)
    requires Inv(s) && RegCas(s, o, s')
    ensures Inv(s')
  {
    hide Inv, WordOK;
    Facts(s, o);
    WordTests(s);
    if s.word == s.ops[o].rpc.seen { LockWord(s, s'); } else { SameWord(s, s'); }
    hide Requested, IsLocked;
    OpStep(s, o, s');
  }

  lemma ReqLoad2Inv(s: State, o: OpId, s': State)
    requires Inv(s) && (ReqLoad2(s, o, s') || ReqCas2(s, o, s'))
    ensures Inv(s')
  {
    hide Inv, WordOK;
    Facts(s, o);
    WordTests(s);
    if s'.word == s.word { SameWord(s, s'); } else { LockWord(s, s'); }
    hide Requested, IsLocked;
    if s' != s { OpStep(s, o, s'); }
  }

  lemma ReqUnlockInv(s: State, o: OpId, s': State)
    requires Inv(s) && ReqUnlock(s, o, s')
    ensures Inv(s')
  {
    hide Inv, WordOK;
    Facts(s, o);
    UnlockWord(s, s');
    OpStep(s, o, s');
  }

  lemma RemCasInv(s: State, o: OpId, s': State)
    requires Inv(s) && (RemLoad(s, o, s') || RemCas(s, o, s'))
    ensures Inv(s')
  {
    hide Inv, WordOK, MayRun;
    Facts(s, o);
    WordTests(s);
    if s'.word == s.word { SameWord(s, s'); } else { LockWord(s, s'); }
    hide Requested, IsLocked;
    if s' != s { OpStep(s, o, s'); }
  }

  lemma RemUnlockInv(s: State, o: OpId, s': State)
    requires Inv(s) && RemUnlock(s, o, s')
    ensures Inv(s')
  {
    hide Inv, WordOK, MayRun;
    Facts(s, o);
    UnlockWord(s, s');
    OpStep(s, o, s');
  }

  lemma RemWaitInv(s: State, o: OpId, s': State)
    requires Inv(s) && RemWait(s, o, s')
    ensures Inv(s')
  {
    hide Inv, WordOK, MayRun;
    Facts(s, o);
    CbAt(s, s.ops[o].cb);
    SameWord(s, s');
    if s' != s { OpStep(s, o, s'); }
  }

  // ---------------------------------------------------------------- ending an operation

  lemma ApartSub(s: State, s': State)
    requires ApartOK(s) && forall p :: p in s'.ops ==> p in s.ops && s'.ops[p] == s.ops[p]
    ensures ApartOK(s')
  {
    forall p, q | p in s'.ops && q in s'.ops && p != q ensures Apart(s'.ops[p], s'.ops[q]) {
        assert Apart(s.ops[p], s.ops[q]); }
  }

  lemma LockEnd(s: State, s': State, o: OpId)
    requires LockOK(s) && o in s.ops && s'.ops == s.ops - {o}
    requires s'.lock == (if s.lock == Some(o) then None else s.lock) &&
        s'.active == (if s.active == Some(o) then None else s.active)
    ensures LockOK(s')
  {
    hide HasLock, Signalling;
  }

  lemma RegisteringEnd(s: State, s': State, o: OpId)
    requires ApartOK(s) && o in s.ops && s'.ops == s.ops - {o}
    ensures forall cb :: StillRegistering(s', cb) <==> StillRegistering(s, cb) && !(s.ops[o].Reg? && s.ops[o].cb == cb)
  {
    forall cb ensures StillRegistering(s', cb) <==> StillRegistering(s, cb) && !(s.ops[o].Reg? && s.ops[o].cb == cb) {
      if StillRegistering(s, cb) {
        var p :| p in s.ops && s.ops[p].Reg? && s.ops[p].cb == cb;
        if p != o { assert p in s'.ops; assert Apart(s.ops[p], s.ops[o]); }
      }
      if StillRegistering(s', cb) {
        var p :| p in s'.ops && s'.ops[p].Reg? && s'.ops[p].cb == cb;
        assert p in s.ops && p != o && Apart(s.ops[p], s.ops[o]);
      }
    }
  }

  /** The constructor ends without registering: the callback ran, or nobody can cancel any more. */
  lemma RegEndInv(s: State, o: OpId, c: Cb, s': State)
    requires Inv(s) && AtReg(s, o) && s.ops[o].rpc.RLoad? && s' == EndOp(SetCb(s, s.ops[o].cb, c), o)
    requires c == FRESH.(status := c.status, runs := c.runs)
    requires if s.requested then c.status == Inline && c.runs == 1
             else c.status == Skipped && c.runs == 0 && s.sources == {}
    ensures Inv(s')
  {
    hide WordOK, LockOK, ApartOK, OpsOK, CbsOK, RefsOK, ListOK;
    Facts(s, o);
    LockEnd(s, s', o);
    ApartSub(s, s');
    RegEndOps(s, o, s');
    OpsKept(s, s', o);
    RegEndCbs(s, o, c, s');
    RegEndRefs(s, o, c, s');
    SameWord(s, s');
  }

  lemma RegEndRefs(s: State, o: OpId, c: Cb, s': State)
    requires RefsOK(s) && ApartOK(s) && ListOK(s) && AtReg(s, o) && OpOK(s, s.ops[o]) && s.ops[o].rpc.RLoad?
    requires s' == EndOp(SetCb(s, s.ops[o].cb, c), o) && (c.status.Inline? || c.status.Skipped?)
    ensures RefsOK(s') && ListOK(s')
  {
    RegisteringEnd(s, s', o);
    hide StillRegistering, ApartOK;
  }

  lemma RegEndOps(s: State, o: OpId, s': State)
    requires OpsOK(s) && ApartOK(s) && LockOK(s) && CbsOK(s) && AtReg(s, o) && s.ops[o].rpc.RLoad?
    requires s'.ops == s.ops - {o} && s'.cbs.Keys == s.cbs.Keys && s' == s.(cbs := s'.cbs, ops := s'.ops)
    requires forall cb :: cb in s.cbs && cb != s.ops[o].cb ==> s'.cbs[cb] == s.cbs[cb]
    ensures SameForOps(s, s', o)
  {
    forall p | p in s.ops && p != o ensures p in s'.ops && s'.ops[p] == s.ops[p] && Framed(s, s', s.ops[p]) {
      assert OpOK(s, s.ops[p]) && OpOK(s, s.ops[o]) && Apart(s.ops[p], s.ops[o]);
    }
  }

  lemma RegEndCbs(s: State, o: OpId, c: Cb, s': State)
    requires CbsOK(s) && AtReg(s, o) && s' == EndOp(SetCb(s, s.ops[o].cb, c), o) &&
        c == FRESH.(status := c.status, runs := c.runs)
    requires if s.requested then c.status == Inline && c.runs == 1
             else c.status == Skipped && c.runs == 0 && s.sources == {}
    requires Current(s') == Current(s) && NowRunning(s') == NowRunning(s)
    ensures CbsOK(s')
  {
    hide Current, NowRunning;
    forall cb | cb in s'.cbs ensures CbOK(s', cb, s'.cbs[cb]) { assert CbOK(s, cb, s.cbs[cb]); }
  }

  lemma RegLoadInv(s: State, o: OpId, s': State)
    requires Inv(s) && RegLoad(s, o, s')
    ensures Inv(s')
  {
    hide Inv, WordOK;
    Facts(s, o);
    WordTests(s);
    var cb := s.ops[o].cb;
    CbAt(s, cb);
    hide IsLocked, IsMerging;
    if Requested(s.word) {
      FreshCb(s, cb);
      RegEndInv(s, o, s'.cbs[cb], s');
    } else if !CanBeCancelled(s.word) {
      FreshCb(s, cb);
      RegEndInv(s, o, s'.cbs[cb], s');
    } else if s' != s {
      SameWord(s, s');
      OpStep(s, o, s');
    }
  }

  lemma FreshCb(s: State, cb: CbId)
    requires cb in s.cbs && CbOK(s, cb, s.cbs[cb]) && s.cbs[cb].status.Fresh?
    ensures s.cbs[cb] == FRESH
  {}

  // ---------------------------------------------------------------- pushing

  lemma PushOps(s: State, o: OpId, s': State)
    requires OpsOK(s) && ApartOK(s) && RegPush(s, o, s')
    ensures OpsOK(s')
  {
    assert OpOK(s, s.ops[o]);
    forall p | p in s.ops && p != o ensures p in s'.ops && s'.ops[p] == s.ops[p] && Framed(s, s', s.ops[p]) {
      assert OpOK(s, s.ops[p]) && Apart(s.ops[p], s.ops[o]) && Apart(s.ops[o], s.ops[p]);
    }
    OpsKept(s, s', o);
  }

  lemma PushList(s: State, o: OpId, s': State)
    requires ListOK(s) && RegPush(s, o, s') && OpOK(s, s.ops[o])
    ensures ListOK(s')
  {}

  lemma PushCbs(s: State, o: OpId, s': State)
    requires CbsOK(s) && RegPush(s, o, s') && OpOK(s, s.ops[o]) && s.active != Some(o)
    ensures CbsOK(s')
  {
    assert Current(s') == Current(s) && NowRunning(s') == NowRunning(s);
    hide Current, NowRunning;
    forall cb | cb in s'.cbs ensures CbOK(s', cb, s'.cbs[cb]) { assert CbOK(s, cb, s.cbs[cb]); }
  }

  lemma PushRefs(s: State, o: OpId, s': State)
    requires RefsOK(s) && RegPush(s, o, s') && OpOK(s, s.ops[o])
    ensures RefsOK(s')
  {
    RegisteringSame(s, s', o);
    assert StillRegistering(s, s.ops[o].cb);
    hide StillRegistering;
  }

  lemma RegPushInv(s: State, o: OpId, s': State)
    requires Inv(s) && RegPush(s, o, s')
    ensures Inv(s')
  {
    Facts(s, o);
    hide WordOK, LockOK, ApartOK, OpsOK, CbsOK, RefsOK, ListOK, DestroyedOK;
    LockKept(s, s', o);
    ApartKept(s, s', o);
    PushOps(s, o, s');
    PushList(s, o, s');
    PushCbs(s, o, s');
    PushRefs(s, o, s');
    SameWord(s, s');
    SameRefs(s, s');
  }

  // ---------------------------------------------------------------- leaving the constructor

  lemma UnlockOps(s: State, o: OpId, s': State)
    requires OpsOK(s) && ApartOK(s) && RegUnlock(s, o, s')
    ensures OpsOK(s')
  {
    forall p | p in s.ops && p != o ensures p in s'.ops && s'.ops[p] == s.ops[p] && Framed(s, s', s.ops[p]) {
      assert OpOK(s, s.ops[p]) && Apart(s.ops[p], s.ops[o]);
    }
    OpsKept(s, s', o);
  }

  lemma UnlockRefs(s: State, o: OpId, s': State)
    requires RefsOK(s) && ApartOK(s) && RegUnlock(s, o, s') && CbsOK(s) && OpOK(s, s.ops[o])
    ensures RefsOK(s') && Of(s.ops[o].cb) !in s.tokens
  {
    RegisteringEnd(s, s', o);
    assert StillRegistering(s, s.ops[o].cb);
    assert CbOK(s, s.ops[o].cb, s.cbs[s.ops[o].cb]);
    hide StillRegistering;
  }

  lemma UnlockTokens(s: State, o: OpId, s': State)
    requires WordOK(s) && RegUnlock(s, o, s') && OpOK(s, s.ops[o]) && Of(s.ops[o].cb) !in s.tokens && s.lock == Some(o)
    ensures WordOK(s') && s'.tokens != {} && s.tokens != {}
  {
    var h, c := Handle(s.ops[o].handle), Of(s.ops[o].cb);
    assert c in s'.tokens && h in s.tokens;
    if s.ops[o].move {
      assert |s.tokens - {h}| == |s.tokens| - 1;
    }
  }

  lemma EndCbs(s: State, s': State, o: OpId)
    requires CbsOK(s) && o in s.ops && s'.ops == s.ops - {o} && s.active != Some(o) && s'.active == s.active
    requires s'.cbs == s.cbs && s'.requested == s.requested && s'.sources == s.sources
    ensures CbsOK(s')
  {
    CbsKept(s, s');
  }

  lemma RegUnlockInv(s: State, o: OpId, s': State)
    requires Inv(s) && RegUnlock(s, o, s')
    ensures Inv(s')
  {
    Facts(s, o);
    hide WordOK, LockOK, ApartOK, OpsOK, CbsOK, RefsOK, ListOK;
    LockEnd(s, s', o);
    ApartSub(s, s');
    UnlockOps(s, o, s');
    EndCbs(s, s', o);
    UnlockRefs(s, o, s');
    UnlockTokens(s, o, s');
    SameList(s, s');
  }

  // ---------------------------------------------------------------- beginning

  lemma BeginRegOps(s: State, o: OpId, cb: CbId, h: nat, move: bool, s': State)
    requires OpsOK(s) && ApartOK(s) && BeginReg(s, o, cb, h, move, s')
    ensures OpsOK(s') && ApartOK(s')
  {
    forall p | p in s.ops ensures Framed(s, s', s.ops[p]) && Apart(s.ops[p], s'.ops[o]) && Apart(s'.ops[o], s.ops[p]) {
      assert OpOK(s, s.ops[p]);
    }
    OpsKept(s, s', o);
    BeginApart(s, s', o);
  }

  lemma BeginLock(s: State, s': State, o: OpId)
    requires LockOK(s) && o !in s.ops && o in s'.ops && s'.ops == s.ops[o := s'.ops[o]] && s'.lock == s.lock &&
        s'.active == s.active
    requires !HasLock(s'.ops[o]) && !Signalling(s'.ops[o])
    ensures LockOK(s') && Current(s') == Current(s) && NowRunning(s') == NowRunning(s)
  {
    hide HasLock, Signalling;
  }

  lemma BeginRegInv(s: State, o: OpId, cb: CbId, h: nat, move: bool, s': State)
    requires Inv(s) && BeginReg(s, o, cb, h, move, s')
    ensures Inv(s')
  {
    hide WordOK, LockOK, ApartOK, OpsOK, CbsOK, RefsOK, ListOK, DestroyedOK, Current, NowRunning;
    SameWord(s, s');
    SameRefs(s, s');
    BeginRegOps(s, o, cb, h, move, s');
    BeginLock(s, s', o);
    BeginRegCbs(s, o, cb, h, move, s');
    BeginRegRefs(s, o, cb, h, move, s');
  }

  lemma BeginApart(s: State, s': State, o: OpId)
    requires ApartOK(s) && o !in s.ops && o in s'.ops && s'.ops == s.ops[o := s'.ops[o]]
    requires forall p :: p in s.ops ==> Apart(s.ops[p], s'.ops[o]) && Apart(s'.ops[o], s.ops[p])
    ensures ApartOK(s')
  {
    forall p, q | p in s'.ops && q in s'.ops && p != q ensures Apart(s'.ops[p], s'.ops[q]) {
      if p != o && q != o { assert Apart(s.ops[p], s.ops[q]); }
    }
  }

  lemma BeginRegCbs(s: State, o: OpId, cb: CbId, h: nat, move: bool, s': State)
    requires CbsOK(s) && BeginReg(s, o, cb, h, move, s') && Current(s') == Current(s) && NowRunning(s') == NowRunning(s)
    ensures CbsOK(s')
  {
    hide Current, NowRunning;
    forall c | c in s'.cbs ensures CbOK(s', c, s'.cbs[c]) { if c != cb { assert CbOK(s, c, s.cbs[c]); } }
  }

  lemma BeginRegRefs(s: State, o: OpId, cb: CbId, h: nat, move: bool, s': State)
    requires RefsOK(s) && ListOK(s) && BeginReg(s, o, cb, h, move, s')
    ensures RefsOK(s') && ListOK(s')
  {
    forall c ensures StillRegistering(s', c) <==> StillRegistering(s, c) || c == cb {
      if StillRegistering(s, c) { var p :| p in s.ops && s.ops[p].Reg? && s.ops[p].cb == c; assert s'.ops[p].Reg? &&
          s'.ops[p].cb == c; }
      if StillRegistering(s', c) { var p :| p in s'.ops && s'.ops[p].Reg? && s'.ops[p].cb == c; assert p == o ||
          s.ops[p].cb == c; }
      if c == cb { assert s'.ops[o].Reg? && s'.ops[o].cb == cb; }
    }
    hide StillRegistering;
  }

  lemma BeginReqInv(s: State, o: OpId, n: nat, t: Tid, s': State)
    requires Inv(s) && BeginReq(s, o, n, t, s')
    ensures Inv(s')
  {
    hide WordOK, LockOK, ApartOK, OpsOK, CbsOK, RefsOK, ListOK, DestroyedOK, Current, NowRunning;
    SameWord(s, s');
    SameRefs(s, s');
    SameList(s, s');
    BeginLock(s, s', o);
    CbsKept(s, s');
    BeginReqOps(s, o, n, t, s');
  }

  lemma BeginReqOps(s: State, o: OpId, n: nat, t: Tid, s': State)
    requires OpsOK(s) && ApartOK(s) && RefsOK(s) && BeginReq(s, o, n, t, s')
    ensures OpsOK(s') && ApartOK(s') && RefsOK(s')
  {
    forall p | p in s.ops ensures Framed(s, s', s.ops[p]) && Apart(s.ops[p], s'.ops[o]) && Apart(s'.ops[o], s.ops[p]) {
      assert OpOK(s, s.ops[p]);
    }
    OpsKept(s, s', o);
    BeginApart(s, s', o);
    OtherRegistering(s, s', o);
    hide StillRegistering;
  }

  /** Operations that do not register come and go without touching registrations. */
  lemma OtherRegistering(s: State, s': State, o: OpId)
    requires (o in s.ops ==> !s.ops[o].Reg?) && (o in s'.ops ==> !s'.ops[o].Reg?)
    requires forall p :: p != o ==> (p in s'.ops <==> p in s.ops) && (p in s.ops ==> s'.ops[p] == s.ops[p])
    ensures forall cb :: StillRegistering(s', cb) <==> StillRegistering(s, cb)
  {
    forall cb ensures StillRegistering(s', cb) <==> StillRegistering(s, cb) {
      if StillRegistering(s, cb) { var p :| p in s.ops && s.ops[p].Reg? && s.ops[p].cb == cb; assert s'.ops[p].Reg? &&
          s'.ops[p].cb == cb; }
      if StillRegistering(s', cb) { var p :| p in s'.ops && s'.ops[p].Reg? && s'.ops[p].cb == cb;
          assert s.ops[p].Reg? && s.ops[p].cb == cb; }
    }
  }

  // ---------------------------------------------------------------- requesting

  lemma ReqLoadInv(s: State, o: OpId, s': State)
    requires Inv(s) && ReqLoad(s, o, s')
    ensures Inv(s')
  {
    hide WordOK, LockOK, ApartOK, OpsOK, CbsOK, RefsOK, ListOK, DestroyedOK, Current, NowRunning;
    Facts(s, o);
    WordTests(s);
    SameWord(s, s');
    if Requested(s.word) {
      SameRefs(s, s');
      SameList(s, s');
      LockEnd(s, s', o);
      ApartSub(s, s');
      EndCbs(s, s', o);
      EndOther(s, o, s');
    } else if s' != s {
      hide Requested, IsLocked;
      ReqStays(s, s', o);
      OpStep(s, o, s');
    }
  }

  lemma ReqStays(s: State, s': State, o: OpId)
    requires o in s.ops && o in s'.ops && s'.ops == s.ops[o := s'.ops[o]] && s'.active == s.active &&
        s.active != Some(o)
    ensures Current(s') == Current(s) && NowRunning(s') == NowRunning(s)
  {}

  lemma EndOther(s: State, o: OpId, s': State)
    requires OpsOK(s) && RefsOK(s) && o in s.ops && s.ops[o].Req? && s' == EndOp(s, o)
    ensures OpsOK(s') && RefsOK(s')
  {
    forall p | p in s.ops && p != o ensures p in s'.ops && s'.ops[p] == s.ops[p] && Framed(s, s', s.ops[p]) {
        assert OpOK(s, s.ops[p]); }
    OpsKept(s, s', o);
    OtherRegistering(s, s', o);
    hide StillRegistering;
  }

  /** The one step that sets the flag: the lock is free, so no registration is under way. */
  lemma FlagOps(s: State, o: OpId, s': State)
    requires Inv(s) && ReqCas(s, o, s') && s.lock.None? && !s.requested && s'.requested
    ensures OpsOK(s')
  {
    hide WordOK, CbsOK, RefsOK, ListOK, DestroyedOK, ApartOK;
    assert OpOK(s, s.ops[o]);
    forall p | p in s.ops && p != o ensures p in s'.ops && s'.ops[p] == s.ops[p] && Framed(s, s', s.ops[p]) {
      assert OpOK(s, s.ops[p]) && (HasLock(s.ops[p]) <==> s.lock == Some(p));
    }
    OpsKept(s, s', o);
  }

  lemma FlagLock(s: State, o: OpId, s': State)
    requires LockOK(s) && OpsOK(s) && ReqCas(s, o, s') && s.lock.None? && !s.requested && s'.requested
    ensures LockOK(s') && s.active.None?
  {
    forall p | p in s.ops ensures !Signalling(s.ops[p]) { assert OpOK(s, s.ops[p]); }
  }

  lemma FlagCbs(s: State, o: OpId, s': State)
    requires CbsOK(s) && OpsOK(s) && ReqCas(s, o, s') && !s.requested && s'.requested && s.active.None?
    ensures CbsOK(s')
  {
    assert OpOK(s, s.ops[o]);
    forall cb | cb in s'.cbs ensures CbOK(s', cb, s'.cbs[cb]) { assert CbOK(s, cb, s.cbs[cb]); }
  }

  lemma ReqCasInv(s: State, o: OpId, s': State)
    requires Inv(s) && ReqCas(s, o, s')
    ensures Inv(s')
  {
    Facts(s, o);
    WordTests(s);
    if s.word == s.ops[o].qpc.seen {
      assert WordOK(s');
      hide WordOK, LockOK, ApartOK, OpsOK, CbsOK, RefsOK, DestroyedOK, Current, NowRunning;
      FlagOps(s, o, s');
      FlagLock(s, o, s');
      FlagCbs(s, o, s');
      ApartKept(s, s', o);
      RefsKept(s, s', o);
      SameRefs(s, s');
    } else {
      hide Inv, WordOK, Current, NowRunning;
      SameWord(s, s');
      ReqStays(s, s', o);
      OpStep(s, o, s');
    }
  }

  lemma ReqNameInv(s: State, o: OpId, s': State)
    requires Inv(s) && ReqName(s, o, s')
    ensures Inv(s')
  {
    Facts(s, o);
    hide WordOK, LockOK, ApartOK, CbsOK, RefsOK, ListOK, DestroyedOK;
    SameWord(s, s');
    SameRefs(s, s');
    SameList(s, s');
    LockKept(s, s', o);
    ApartKept(s, s', o);
    RefsKept(s, s', o);
    CbsKept(s, s');
    NameOps(s, o, s');
  }

  lemma NameOps(s: State, o: OpId, s': State)
    requires OpsOK(s) && LockOK(s) && ReqName(s, o, s')
    ensures OpsOK(s')
  {
    assert OpOK(s, s.ops[o]);
    forall p | p in s.ops && p != o ensures p in s'.ops && s'.ops[p] == s.ops[p] && Framed(s, s', s.ops[p]) {
      assert OpOK(s, s.ops[p]) && (Signalling(s.ops[p]) <==> s.active == Some(p)) &&
          (Signalling(s.ops[o]) <==> s.active == Some(o));
    }
    OpsKept(s, s', o);
  }

  // ---------------------------------------------------------------- dequeuing and running

  /** Callbacks are as the operations know them, except for one. */
  lemma OthersKept(s: State, s': State, o: OpId, cb: CbId)
    requires OpsOK(s) && o in s.ops && s.ops[o].Req? && s'.ops.Keys <= s.ops.Keys
    requires forall p :: p in s.ops && p != o ==> p in s'.ops && s'.ops[p] == s.ops[p]
    requires s'.cbs.Keys == s.cbs.Keys && forall c :: c in s.cbs && c != cb ==> s'.cbs[c] == s.cbs[c]
    requires s'.requested == s.requested && s'.signaller == s.signaller && s'.tokens == s.tokens &&
        s'.sources == s.sources
    requires forall p :: p in s.ops && p != o ==>
        !Signalling(s.ops[p]) && (CbOf(s.ops[p]) == Some(cb) ==> OpOK(s', s.ops[p]))
    requires o in s'.ops ==> OpOK(s', s'.ops[o])
    ensures OpsOK(s')
  {
    forall p | p in s'.ops ensures OpOK(s', s'.ops[p]) {
      if p != o {
        assert OpOK(s, s.ops[p]);
        if CbOf(s.ops[p]) != Some(cb) { FramedOK(s, s', s.ops[p]); }
      }
    }
  }

  lemma OnlyOne(s: State, o: OpId, p: OpId)
    requires LockOK(s) && o in s.ops && p in s.ops && p != o && s.active == Some(o)
    ensures !Signalling(s.ops[p]) && (s.lock == Some(o) ==> !HasLock(s.ops[p]))
  {
    hide Signalling, HasLock;
  }

  lemma TakeOps(s: State, o: OpId, cb: CbId, s': State)
    requires OpsOK(s) && LockOK(s) && ListOK(s) && CbsOK(s) && ReqDequeue(s, o, s') && s.list != [] && cb == s.list[0]
    ensures OpsOK(s')
  {
    assert OpOK(s, s.ops[o]) && cb in s.list && CbOK(s, cb, s.cbs[cb]);
    forall p | p in s.ops && p != o ensures !Signalling(s.ops[p]) &&
        (CbOf(s.ops[p]) == Some(cb) ==> OpOK(s', s.ops[p])) {
      OnlyOne(s, o, p);
      assert OpOK(s, s.ops[p]);
    }
    OthersKept(s, s', o, cb);
  }

  lemma TakeCbs(s: State, o: OpId, cb: CbId, s': State)
    requires CbsOK(s) && OpsOK(s) && ListOK(s) && ReqDequeue(s, o, s') && s.list != [] && cb == s.list[0] &&
        s.active == Some(o)
    ensures CbsOK(s')
  {
    assert OpOK(s, s.ops[o]) && cb in s.list;
    assert Current(s) == None && Current(s') == Some(cb);
    forall c | c in s'.cbs ensures CbOK(s', c, s'.cbs[c]) { assert CbOK(s, c, s.cbs[c]); }
  }

  lemma TakeList(s: State, o: OpId, cb: CbId, s': State)
    requires ListOK(s) && RefsOK(s) && ReqDequeue(s, o, s') && s.list != [] && cb == s.list[0] && s.active == Some(o)
    ensures ListOK(s') && RefsOK(s')
  {
    assert cb in s.list;
    assert s.list == [cb] + s.list[1..];
    RegisteringSame(s, s', o);
    hide StillRegistering;
  }

  lemma ReqDequeueInv(s: State, o: OpId, s': State)
    requires Inv(s) && ReqDequeue(s, o, s')
    ensures Inv(s')
  {
    hide WordOK, LockOK, ApartOK, OpsOK, CbsOK, RefsOK, ListOK, DestroyedOK;
    Facts(s, o);
    SameWord(s, s');
    if s.list == [] {
      OpStep(s, o, s');
    } else {
      SameRefs(s, s');
      LockKept(s, s', o);
      ApartKept(s, s', o);
      TakeOps(s, o, s.list[0], s');
      TakeCbs(s, o, s.list[0], s');
      TakeList(s, o, s.list[0], s');
    }
  }

  lemma RunOps(s: State, o: OpId, s': State)
    requires OpsOK(s) && LockOK(s) && CbsOK(s) && ReqRun(s, o, s')
    ensures OpsOK(s')
  {
    var cb := s.ops[o].qpc.cb;
    assert OpOK(s, s.ops[o]) && CbOK(s, cb, s.cbs[cb]);
    forall p | p in s.ops && p != o ensures !Signalling(s.ops[p]) &&
        (CbOf(s.ops[p]) == Some(cb) ==> OpOK(s', s.ops[p])) {
      OnlyOne(s, o, p);
      assert OpOK(s, s.ops[p]);
    }
    OthersKept(s, s', o, cb);
  }

  lemma RunCbs(s: State, o: OpId, s': State)
    requires CbsOK(s) && ReqRun(s, o, s') && OpOK(s, s.ops[o]) && s.active == Some(o)
    ensures CbsOK(s')
  {
    var cb := s.ops[o].qpc.cb;
    assert Current(s) == Some(cb) == Current(s') && NowRunning(s');
    forall c | c in s'.cbs ensures CbOK(s', c, s'.cbs[c]) { assert CbOK(s, c, s.cbs[c]); }
  }

  lemma RunList(s: State, s': State, cb: CbId)
    requires ListOK(s) && s'.list == s.list && s'.requested == s.requested && s'.cbs.Keys == s.cbs.Keys
    requires forall c :: c in s.cbs ==> s'.cbs[c].status == s.cbs[c].status
    requires s'.active == s.active || s.list == []
    ensures ListOK(s')
  {}

  lemma RunRefs(s: State, s': State)
    requires RefsOK(s) && s'.tokens == s.tokens && s'.cbs.Keys == s.cbs.Keys
    requires forall c :: c in s.cbs ==> s'.cbs[c].status == s.cbs[c].status && s'.cbs[c].gone == s.cbs[c].gone
    requires forall c :: StillRegistering(s', c) <==> StillRegistering(s, c)
    ensures RefsOK(s')
  {
    hide StillRegistering;
    forall c ensures Of(c) in s'.tokens <==>
        c in s'.cbs && Registered(s'.cbs[c]) && !s'.cbs[c].gone && !StillRegistering(s', c) {
      assert Of(c) in s.tokens <==> c in s.cbs && Registered(s.cbs[c]) && !s.cbs[c].gone && !StillRegistering(s, c);
    }
  }

  lemma ReqRunInv(s: State, o: OpId, s': State)
    requires Inv(s) && ReqRun(s, o, s')
    ensures Inv(s')
  {
    hide WordOK, LockOK, ApartOK, OpsOK, CbsOK, RefsOK, ListOK, DestroyedOK, StillRegistering;
    Facts(s, o);
    SameWord(s, s');
    SameRefs(s, s');
    LockKept(s, s', o);
    ApartKept(s, s', o);
    RunOps(s, o, s');
    RunCbs(s, o, s');
    RunList(s, s', s.ops[o].qpc.cb);
    RegisteringSame(s, s', o);
    RunRefs(s, s');
  }

  lemma ReturnOps(s: State, o: OpId, s': State)
    requires OpsOK(s) && LockOK(s) && CbsOK(s) && ReqReturn(s, o, s')
    ensures OpsOK(s')
  {
    var cb := s.ops[o].qpc.cb;
    assert OpOK(s, s.ops[o]) && CbOK(s, cb, s.cbs[cb]);
    forall p | p in s.ops && p != o ensures !Signalling(s.ops[p]) &&
        (CbOf(s.ops[p]) == Some(cb) ==> OpOK(s', s.ops[p])) {
      OnlyOne(s, o, p);
      assert OpOK(s, s.ops[p]);
    }
    OthersKept(s, s', o, cb);
  }

  lemma ReturnCbs(s: State, o: OpId, s': State)
    requires CbsOK(s) && ReqReturn(s, o, s') && OpOK(s, s.ops[o]) && s.active == Some(o)
    ensures CbsOK(s')
  {
    var cb := s.ops[o].qpc.cb;
    assert Current(s) == Some(cb) && Current(s') == None;
    forall c | c in s'.cbs ensures CbOK(s', c, s'.cbs[c]) { assert CbOK(s, c, s.cbs[c]) && CbOK(s, cb, s.cbs[cb]); }
  }

  lemma ReqReturnInv(s: State, o: OpId, s': State)
    requires Inv(s) && ReqReturn(s, o, s')
    ensures Inv(s')
  {
    hide WordOK, LockOK, ApartOK, OpsOK, CbsOK, RefsOK, ListOK, DestroyedOK, StillRegistering;
    Facts(s, o);
    SameWord(s, s');
    SameRefs(s, s');
    if s.ops[o].qpc.more {
      LockKept(s, s', o);
      ApartKept(s, s', o);
      RegisteringSame(s, s', o);
    } else {
      LockEnd(s, s', o);
      ApartSub(s, s');
      OtherRegistering(s, s', o);
    }
    ReturnOps(s, o, s');
    ReturnCbs(s, o, s');
    RunList(s, s', s.ops[o].qpc.cb);
    RunRefs(s, s');
  }

  lemma ReqEndInv(s: State, o: OpId, s': State)
    requires Inv(s) && ReqEnd(s, o, s')
    ensures Inv(s')
  {
    hide WordOK, LockOK, ApartOK, OpsOK, CbsOK, RefsOK, ListOK, DestroyedOK, StillRegistering;
    Facts(s, o);
    UnlockWord(s, s');
    SameRefs(s, s');
    LockEnd(s, s', o);
    ApartSub(s, s');
    OtherRegistering(s, s', o);
    EndReqOps(s, o, s');
    CbsKept(s, s');
    RunList(s, s', 0);
    RunRefs(s, s');
  }

  lemma EndReqOps(s: State, o: OpId, s': State)
    requires OpsOK(s) && LockOK(s) && ReqEnd(s, o, s')
    ensures OpsOK(s')
  {
    forall p | p in s.ops && p != o ensures p in s'.ops && s'.ops[p] == s.ops[p] && Framed(s, s', s.ops[p]) {
        assert OpOK(s, s.ops[p]); }
    OpsKept(s, s', o);
  }

  // ---------------------------------------------------------------- deregistration

  /** The operations' view when one callback changes that only this destructor and the requester know. */
  lemma RemOthers(s: State, s': State, o: OpId, cb: CbId)
    requires OpsOK(s) && (o in s.ops ==> CbOf(s.ops[o]) == Some(cb)) && s'.ops.Keys <= s.ops.Keys + {o}
    requires forall p :: p in s.ops && p != o ==> p in s'.ops && s'.ops[p] == s.ops[p] && CbOf(s.ops[p]) != Some(cb)
    requires cb in s.cbs && s'.cbs.Keys == s.cbs.Keys && forall c :: c in s.cbs && c != cb ==> s'.cbs[c] == s.cbs[c]
    requires s'.requested == s.requested && s'.signaller == s.signaller && s'.sources == s.sources &&
        |s'.list| <= |s.list|
    requires forall h :: Handle(h) in s.tokens ==> Handle(h) in s'.tokens
    requires s'.cbs[cb].status == s.cbs[cb].status || !s.cbs[cb].status.Taken?
    requires s'.cbs[cb].runs == s.cbs[cb].runs && s'.cbs[cb].running == s.cbs[cb].running
    requires o in s'.ops ==> OpOK(s', s'.ops[o])
    ensures OpsOK(s')
  {
    forall p | p in s'.ops ensures OpOK(s', s'.ops[p]) {
      if p != o {
        assert OpOK(s, s.ops[p]);
        RemOther(s, s', s.ops[p], cb);
      }
    }
  }

  lemma RemOther(s: State, s': State, op: Op, cb: CbId)
    requires OpOK(s, op) && CbOf(op) != Some(cb)
    requires cb in s.cbs && s'.cbs.Keys == s.cbs.Keys && forall c :: c in s.cbs && c != cb ==> s'.cbs[c] == s.cbs[c]
    requires s'.requested == s.requested && s'.signaller == s.signaller && s'.sources == s.sources &&
        |s'.list| <= |s.list|
    requires forall h :: Handle(h) in s.tokens ==> Handle(h) in s'.tokens
    requires s'.cbs[cb].status == s.cbs[cb].status || !s.cbs[cb].status.Taken?
    requires s'.cbs[cb].runs == s.cbs[cb].runs && s'.cbs[cb].running == s.cbs[cb].running
    ensures OpOK(s', op)
  {}

  lemma AloneOn(s: State, o: OpId, p: OpId)
    requires ApartOK(s) && o in s.ops && p in s.ops && p != o && CbOf(s.ops[o]).Some?
    ensures CbOf(s.ops[p]) != CbOf(s.ops[o])
  {
    assert Apart(s.ops[o], s.ops[p]);
  }

  lemma BeginRemOps(s: State, o: OpId, cb: CbId, t: Tid, s': State)
    requires OpsOK(s) && ApartOK(s) && CbsOK(s) && BeginRem(s, o, cb, t, s')
    ensures OpsOK(s') && ApartOK(s')
  {
    hide MayRun;
    assert CbOK(s, cb, s.cbs[cb]);
    forall p | p in s.ops ensures CbOf(s.ops[p]) != Some(cb) && Apart(s.ops[p], s'.ops[o]) &&
        Apart(s'.ops[o], s.ops[p]) {
      assert OpOK(s, s.ops[p]);
    }
    RemOthers(s, s', o, cb);
    BeginApart(s, s', o);
  }

  lemma BeginRemCbs(s: State, o: OpId, cb: CbId, t: Tid, s': State)
    requires CbsOK(s) && BeginRem(s, o, cb, t, s') && Current(s') == Current(s) && NowRunning(s') == NowRunning(s)
    ensures CbsOK(s')
  {
    hide Current, NowRunning, MayRun;
    forall c | c in s'.cbs ensures CbOK(s', c, s'.cbs[c]) { assert CbOK(s, c, s.cbs[c]); }
  }

  lemma BeginRemInv(s: State, o: OpId, cb: CbId, t: Tid, s': State)
    requires Inv(s) && BeginRem(s, o, cb, t, s')
    ensures Inv(s')
  {
    hide WordOK, LockOK, ApartOK, OpsOK, CbsOK, RefsOK, ListOK, DestroyedOK, StillRegistering, Current, NowRunning,
        MayRun;
    SameWord(s, s');
    SameRefs(s, s');
    BeginLock(s, s', o);
    BeginRemOps(s, o, cb, t, s');
    BeginRemCbs(s, o, cb, t, s');
    OtherRegistering(s, s', o);
    RunList(s, s', cb);
    RunRefs(s, s');
  }

  lemma {:induction false} WithoutFacts(list: seq<CbId>, cb: CbId)
    requires NoRepeats(list) && cb in list
    ensures NoRepeats(Without(list, cb)) && |Without(list, cb)| == |list| - 1
    ensures forall c :: c in Without(list, cb) <==> c in list && c != cb
  {
    assert list == [list[0]] + list[1..];
    if list[0] != cb {
      WithoutFacts(list[1..], cb);
      var rest := Without(list[1..], cb);
      assert list[0] !in list[1..];
      forall j | 0 <= j < |rest| ensures list[0] != rest[j] { assert rest[j] in rest; }
    }
  }

  lemma UnlinkList(s: State, o: OpId, s': State)
    requires ListOK(s) && RefsOK(s) && RemUnlink(s, o, s') && s.ops[o].cb in s.list
    ensures ListOK(s') && RefsOK(s') && |s'.list| <= |s.list|
  {
    hide MayRun;
    WithoutFacts(s.list, s.ops[o].cb);
    RegisteringSame(s, s', o);
    hide StillRegistering, Without;
  }

  lemma UnlinkOps(s: State, o: OpId, s': State)
    requires OpsOK(s) && ApartOK(s) && RemUnlink(s, o, s') && s.ops[o].cb in s.list && ListOK(s) &&
        |s'.list| <= |s.list|
    ensures OpsOK(s')
  {
    hide MayRun, Without;
    assert OpOK(s, s.ops[o]);
    forall p | p in s.ops && p != o ensures CbOf(s.ops[p]) != Some(s.ops[o].cb) { AloneOn(s, o, p); }
    RemOthers(s, s', o, s.ops[o].cb);
  }

  lemma UnlinkCbs(s: State, o: OpId, s': State)
    requires CbsOK(s) && RemUnlink(s, o, s') && s.ops[o].cb in s.list && ListOK(s) && OpOK(s, s.ops[o]) &&
        s.active != Some(o)
    ensures CbsOK(s')
  {
    hide MayRun, Without;
    assert Current(s') == Current(s) && NowRunning(s') == NowRunning(s);
    hide Current, NowRunning;
    forall c | c in s'.cbs ensures CbOK(s', c, s'.cbs[c]) { assert CbOK(s, c, s.cbs[c]); }
  }

  lemma RemUnlinkInv(s: State, o: OpId, s': State)
    requires Inv(s) && RemUnlink(s, o, s')
    ensures Inv(s')
  {
    hide WordOK, LockOK, ApartOK, OpsOK, CbsOK, RefsOK, DestroyedOK, MayRun, Without;
    Facts(s, o);
    SameWord(s, s');
    if s.ops[o].cb in s.list {
      SameRefs(s, s');
      LockKept(s, s', o);
      ApartKept(s, s', o);
      UnlinkList(s, o, s');
      UnlinkOps(s, o, s');
      UnlinkCbs(s, o, s');
    } else {
      OpStep(s, o, s');
    }
  }

  /** The callback's reference goes: the last step of either way through removeCallback. */
  lemma DropRef(s: State, o: OpId, s': State)
    requires Inv(s) && AtRem(s, o) && (s.ops[o].mpc.MUnlockDec? || s.ops[o].mpc.MDrop?)
    requires s'.tokens == s.tokens - {Of(s.ops[o].cb)} && s'.sources == s.sources && s'.requested == s.requested
    requires s'.ops == s.ops - {o} && s'.cbs == s.cbs[s.ops[o].cb := s.cbs[s.ops[o].cb].(gone := true)]
    ensures RefsOK(s') && Of(s.ops[o].cb) in s.tokens && |s'.tokens| == |s.tokens| - 1
  {
    hide WordOK, LockOK, CbsOK, ListOK, DestroyedOK, MayRun;
    var cb := s.ops[o].cb;
    assert OpOK(s, s.ops[o]);
    forall p | p in s.ops && s.ops[p].Reg? ensures s.ops[p].cb != cb { AloneOn(s, o, p); }
    assert !StillRegistering(s, cb);
    OtherRegistering(s, s', o);
    hide StillRegistering, OpsOK, ApartOK;
  }

  lemma GoneCbs(s: State, o: OpId, s': State)
    requires CbsOK(s) && AtRem(s, o) && (s.ops[o].mpc.MUnlockDec? || s.ops[o].mpc.MDrop?) && OpOK(s, s.ops[o]) &&
        s.active != Some(o)
    requires s'.cbs == s.cbs[s.ops[o].cb := s.cbs[s.ops[o].cb].(gone := true)] && s'.ops == s.ops - {o} &&
        s'.active == s.active
    requires s'.requested == s.requested && s'.sources == s.sources
    ensures CbsOK(s')
  {
    hide MayRun;
    assert Current(s') == Current(s) && NowRunning(s') == NowRunning(s);
    hide Current, NowRunning;
    forall c | c in s'.cbs ensures CbOK(s', c, s'.cbs[c]) { assert CbOK(s, c, s.cbs[c]); }
  }

  lemma GoneOps(s: State, o: OpId, s': State)
    requires OpsOK(s) && ApartOK(s) && AtRem(s, o) && s'.ops == s.ops - {o}
    requires s'.cbs == s.cbs[s.ops[o].cb := s.cbs[s.ops[o].cb].(gone := true)]
    requires s'.requested == s.requested && s'.signaller == s.signaller && s'.sources == s.sources && s'.list == s.list
    requires s'.tokens == s.tokens - {Of(s.ops[o].cb)}
    ensures OpsOK(s') && ApartOK(s')
  {
    hide MayRun;
    forall p | p in s.ops && p != o ensures CbOf(s.ops[p]) != Some(s.ops[o].cb) { AloneOn(s, o, p); }
    RemOthers(s, s', o, s.ops[o].cb);
    ApartSub(s, s');
  }

  lemma DropWord(s: State, s': State, o: OpId)
    requires WordOK(s) && DestroyedOK(s) && |s'.tokens| == |s.tokens| - 1 && s'.sources == s.sources &&
        s'.requested == s.requested
    requires (s.lock.None? && s'.lock.None? && s'.word == s.word - TOKEN) ||
        (s.lock.Some? && s'.lock == s.lock && s'.word == s.word - TOKEN)
             || (s.lock.Some? && s'.lock.None? && s'.word == s.word - LOCKED - TOKEN)
    requires s'.destroyed == s.destroyed + if (if s'.lock == s.lock then s.word < 2 * TOKEN
        else s.word < LOCKED + 2 * TOKEN) then 1 else 0
    ensures WordOK(s') && DestroyedOK(s')
  {
    DropTests(s);
    assert s.tokens != {};
    assert |s'.tokens| == 0 <==> s'.tokens == {};
  }

  lemma RemDropInv(s: State, o: OpId, s': State)
    requires Inv(s) && (RemDrop(s, o, s') || RemUnlockDec(s, o, s'))
    ensures Inv(s')
  {
    hide WordOK, LockOK, ApartOK, OpsOK, CbsOK, RefsOK, ListOK, DestroyedOK, MayRun;
    Facts(s, o);
    DropRef(s, o, s');
    DropWord(s, s', o);
    LockEnd(s, s', o);
    GoneOps(s, o, s');
    GoneCbs(s, o, s');
    RunList(s, s', s.ops[o].cb);
  }

  /** On the signalling thread a taken callback is running right now, or has finished. */
  lemma OnSignaller(s: State, o: OpId)
    requires Inv(s) && AtRem(s, o) && s.ops[o].mpc.MWho? && s.signaller == Some(s.ops[o].thread)
    ensures s.cbs[s.ops[o].cb].status.Taken? && (s.cbs[s.ops[o].cb].running || Finished(s.cbs[s.ops[o].cb]))
  {
    hide WordOK, ApartOK, RefsOK, ListOK, DestroyedOK;
    var cb := s.ops[o].cb;
    assert OpOK(s, s.ops[o]) && CbOK(s, cb, s.cbs[cb]);
    if s.active.Some? {
      assert OpOK(s, s.ops[s.active.value]);
      assert Signalling(s.ops[s.active.value]);
    }
  }

  lemma WhoOps(s: State, o: OpId, s': State)
    requires OpsOK(s) && ApartOK(s) && RemWho(s, o, s') && s.signaller == Some(s.ops[o].thread)
    requires s.cbs[s.ops[o].cb].status.Taken? && (s.cbs[s.ops[o].cb].running || Finished(s.cbs[s.ops[o].cb]))
    ensures OpsOK(s')
  {
    hide MayRun;
    assert OpOK(s, s.ops[o]);
    forall p | p in s.ops && p != o ensures CbOf(s.ops[p]) != Some(s.ops[o].cb) { AloneOn(s, o, p); }
    RemOthers(s, s', o, s.ops[o].cb);
  }

  lemma WhoCbs(s: State, o: OpId, s': State)
    requires CbsOK(s) && RemWho(s, o, s') && OpOK(s, s.ops[o]) && s.signaller == Some(s.ops[o].thread) &&
        s.active != Some(o)
    requires s.cbs[s.ops[o].cb].running || Finished(s.cbs[s.ops[o].cb])
    ensures CbsOK(s')
  {
    hide MayRun;
    assert Current(s') == Current(s) && NowRunning(s') == NowRunning(s);
    hide Current, NowRunning;
    forall c | c in s'.cbs ensures CbOK(s', c, s'.cbs[c]) { assert CbOK(s, c, s.cbs[c]); }
  }

  lemma RemWhoInv(s: State, o: OpId, s': State)
    requires Inv(s) && RemWho(s, o, s')
    ensures Inv(s')
  {
    hide WordOK, LockOK, ApartOK, OpsOK, CbsOK, RefsOK, ListOK, DestroyedOK, MayRun, StillRegistering;
    Facts(s, o);
    SameWord(s, s');
    if s.signaller == Some(s.ops[o].thread) {
      OnSignaller(s, o);
      SameRefs(s, s');
      LockKept(s, s', o);
      ApartKept(s, s', o);
      WhoOps(s, o, s');
      WhoCbs(s, o, s');
      RunList(s, s', s.ops[o].cb);
      RegisteringSame(s, s', o);
      RunRefs(s, s');
    } else {
      OpStep(s, o, s');
    }
  }
}
