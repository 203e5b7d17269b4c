/** One CancellationState made by a CancellationSource: the packed word, the callback list, and any number of
    registrations, deregistrations and cancellation requests, one step per atomic operation on the word and
    one per section under its lock bit. */
module Cancellation {
  import opened Options

  type Tid = nat
  type OpId = nat
  type CbId = nat

  const LOCKED: nat := 2
  const TOKEN: nat := 8
  const SOURCE: nat := 0x4_0000_0000

  function Requested(word: nat): bool { word % 2 == 1 }

  function IsLocked(word: nat): bool { word / 2 % 2 == 1 }

  function IsMerging(word: nat): bool { word / 4 % 2 == 1 }

  function CanBeCancelled(word: nat): bool { word >= SOURCE || IsMerging(word) || Requested(word) }

  /** The word that stands for the given flags and counts. */
  function Pack(requested: bool, locked: bool, tokens: nat, sources: nat): nat {
    (if requested then 1 else 0) + (if locked then LOCKED else 0) + TOKEN * tokens + SOURCE * sources
  }

  /** Who owns a token reference: a CancellationToken, or a registered callback. */
  datatype Owner = Handle(h: nat) | Of(cb: CbId)

  datatype Status =
    | Fresh                    // its constructor has not finished
    | Listed                   // in the list
    | Taken                    // dequeued by the requester
    | Unlinked                 // removed from the list by its destructor
    | Inline                   // run by its own constructor
    | Skipped                  // not registered: nobody can cancel any more

  datatype Cb = Cb(status: Status, runs: nat, running: bool, completed: bool, removing: bool, gone: bool, inside: bool)

  datatype Op =
    | Reg(cb: CbId, handle: nat, move: bool, rpc: RegPc)
    | Rem(cb: CbId, thread: Tid, mpc: RemPc)
    | Req(source: nat, thread: Tid, qpc: ReqPc)

  datatype RegPc = RLoad | RCas(seen: nat) | RPush | RUnlock
  datatype RemPc = MLoad | MCas(seen: nat) | MUnlink | MUnlockDec | MUnlock | MWho | MWait | MDrop
  datatype ReqPc = QLoad | QCas(seen: nat) | QName | QDequeue | QUnlock(cb: CbId, more: bool) | QRun(cb: CbId,
      more: bool)
    | QRunning(cb: CbId, more: bool) | QLoad2 | QCas2(seen: nat) | QEnd

  /** requested, lock, tokens, sources and the active request record who really did what; the code only has
      the word. */
  datatype State = State(word: nat, list: seq<CbId>, signaller: Option<Tid>, cbs: map<CbId, Cb>, ops: map<OpId, Op>,
                         requested: bool, lock: Option<OpId>, tokens: set<Owner>, sources: set<nat>,
                             active: Option<OpId>,
                         destroyed: nat)

  predicate HasLock(op: Op) {
    match op
    case Reg(_, _, _, pc) => pc.RPush? || pc.RUnlock?
    case Rem(_, _, pc) => pc.MUnlink? || pc.MUnlockDec? || pc.MUnlock?
    case Req(_, _, pc) => pc.QName? || pc.QDequeue? || pc.QUnlock? || pc.QEnd?
  }

  /** The request that set the flag, until it returns. */
  predicate Signalling(op: Op) {
    op.Req? && !op.qpc.QLoad? && !op.qpc.QCas?
  }

  // ---------------------------------------------------------------- handles

  function Grab(s: State, owner: Owner): State {
    s.(word := s.word + TOKEN, tokens := s.tokens + {owner})
  }

  ghost predicate RoomFor(s: State) {
    |s.tokens| + 1 < 0x8000_0000 && |s.sources| + 1 < 0x4000_0000
  }

  /** getToken or a copied token. */
  ghost predicate NewToken(s: State, h: nat, s': State) {
    && (s.sources != {} || exists g :: Handle(g) in s.tokens) && Handle(h) !in s.tokens && RoomFor(s)
    && s' == Grab(s, Handle(h))
  }

  ghost predicate NewSource(s: State, n: nat, s': State) {
    && s.sources != {} && n !in s.sources && RoomFor(s)
    && s' == s.(word := s.word + SOURCE, sources := s.sources + {n})
  }

  ghost predicate DropToken(s: State, h: nat, s': State) {
    && Handle(h) in s.tokens && (forall o :: o in s.ops && s.ops[o].Reg? ==> s.ops[o].handle != h)
    && s.word >= TOKEN
    && s' == s.(word := s.word - TOKEN, tokens := s.tokens - {Handle(h)},
        destroyed := s.destroyed + if s.word < 2 * TOKEN then 1 else 0)
  }

  ghost predicate DropSource(s: State, n: nat, s': State) {
    && n in s.sources && (forall o :: o in s.ops && s.ops[o].Req? ==> s.ops[o].source != n)
    && s.word >= SOURCE
    && s' == s.(word := s.word - SOURCE, sources := s.sources - {n},
                destroyed := s.destroyed + if s.word < SOURCE + TOKEN then 1 else 0)
  }

  // ---------------------------------------------------------------- registration

  function SetOp(s: State, o: OpId, op: Op): State { s.(ops := s.ops[o := op]) }

  function EndOp(s: State, o: OpId): State { s.(ops := s.ops - {o}) }

  function SetCb(s: State, cb: CbId, c: Cb): State { s.(cbs := s.cbs[cb := c]) }

  const FRESH := Cb(Fresh, 0, false, false, false, false, false)

  ghost predicate BeginReg(s: State, o: OpId, cb: CbId, h: nat, move: bool, s': State) {
    && o !in s.ops && cb !in s.cbs && Handle(h) in s.tokens
    && (move ==> forall p :: p in s.ops && s.ops[p].Reg? ==> s.ops[p].handle != h)
    && (forall p :: p in s.ops && s.ops[p].Reg? && s.ops[p].move ==> s.ops[p].handle != h)
    && s' == SetOp(SetCb(s, cb, FRESH), o, Reg(cb, h, move, RLoad))
  }

  ghost predicate AtReg(s: State, o: OpId) { o in s.ops && s.ops[o].Reg? && s.ops[o].cb in s.cbs }

  /** The loaded word decides: run inline, give up, wait, or try to lock. */
  ghost predicate RegLoad(s: State, o: OpId, s': State) {
    && AtReg(s, o) && s.ops[o].rpc.RLoad?
    && var cb := s.ops[o].cb;
       if Requested(s.word) then s' == EndOp(SetCb(s, cb, s.cbs[cb].(status := Inline, runs := s.cbs[cb].runs + 1)), o)
       else if !CanBeCancelled(s.word) then s' == EndOp(SetCb(s, cb, s.cbs[cb].(status := Skipped)), o)
       else if IsLocked(s.word) then s' == s
       else s' == SetOp(s, o, s.ops[o].(rpc := RCas(s.word)))
  }

  ghost predicate RegCas(s: State, o: OpId, s': State) {
    && AtReg(s, o) && s.ops[o].rpc.RCas?
    && if s.word == s.ops[o].rpc.seen then
         s' == SetOp(s, o, s.ops[o].(rpc := RPush)).(word := s.word + LOCKED, lock := Some(o))
       else s' == SetOp(s, o, s.ops[o].(rpc := RLoad))
  }

  ghost predicate RegPush(s: State, o: OpId, s': State) {
    && AtReg(s, o) && s.ops[o].rpc.RPush?
    && var cb := s.ops[o].cb;
       s' == SetOp(SetCb(s, cb, s.cbs[cb].(status := Listed)), o, s.ops[o].(rpc := RUnlock)).(list := [cb] + s.list)
  }

  /** unlock, or unlock and count the callback's own reference in one operation. */
  ghost predicate RegUnlock(s: State, o: OpId, s': State) {
    && AtReg(s, o) && s.ops[o].rpc.RUnlock? && s.word >= LOCKED
    && var op := s.ops[o];
       if op.move then
         s' == EndOp(s, o).(word := s.word - LOCKED, lock := None,
             tokens := s.tokens - {Handle(op.handle)} + {Of(op.cb)})
       else
         RoomFor(s) && s' == EndOp(s, o).(word := s.word - LOCKED + TOKEN, lock := None,
             tokens := s.tokens + {Of(op.cb)})
  }

  // ---------------------------------------------------------------- requesting cancellation

  ghost predicate BeginReq(s: State, o: OpId, n: nat, t: Tid, s': State) {
    && o !in s.ops && n in s.sources && s' == SetOp(s, o, Req(n, t, QLoad))
  }

  ghost predicate AtReq(s: State, o: OpId) { o in s.ops && s.ops[o].Req? }

  ghost predicate ReqLoad(s: State, o: OpId, s': State) {
    && AtReq(s, o) && s.ops[o].qpc.QLoad?
    && if Requested(s.word) then s' == EndOp(s, o)
       else if IsLocked(s.word) then s' == s
       else s' == SetOp(s, o, s.ops[o].(qpc := QCas(s.word)))
  }

  ghost predicate ReqCas(s: State, o: OpId, s': State) {
    && AtReq(s, o) && s.ops[o].qpc.QCas?
    && if s.word == s.ops[o].qpc.seen then
         s' == SetOp(s, o, s.ops[o].(qpc := QName)).(word := s.word + LOCKED + 1, lock := Some(o), requested := true,
             active := Some(o))
       else s' == SetOp(s, o, s.ops[o].(qpc := QLoad))
  }

  ghost predicate ReqName(s: State, o: OpId, s': State) {
    && AtReq(s, o) && s.ops[o].qpc.QName?
    && s' == SetOp(s, o, s.ops[o].(qpc := QDequeue)).(signaller := Some(s.ops[o].thread))
  }

  ghost predicate ReqDequeue(s: State, o: OpId, s': State) {
    && AtReq(s, o) && s.ops[o].qpc.QDequeue?
    && if s.list == [] then s' == SetOp(s, o, s.ops[o].(qpc := QEnd))
       else
         && s.list[0] in s.cbs
         && var cb := s.list[0];
            s' == SetOp(SetCb(s, cb, s.cbs[cb].(status := Taken)), o,
                s.ops[o].(qpc := QUnlock(cb, |s.list| > 1))).(list := s.list[1..])
  }

  ghost predicate ReqUnlock(s: State, o: OpId, s': State) {
    && AtReq(s, o) && s.ops[o].qpc.QUnlock? && s.word >= LOCKED
    && s' == SetOp(s, o, s.ops[o].(qpc := QRun(s.ops[o].qpc.cb, s.ops[o].qpc.more))).(word := s.word - LOCKED,
        lock := None)
  }

  ghost predicate ReqRun(s: State, o: OpId, s': State) {
    && AtReq(s, o) && s.ops[o].qpc.QRun? && s.ops[o].qpc.cb in s.cbs
    && var cb := s.ops[o].qpc.cb;
       s' == SetOp(SetCb(s, cb, s.cbs[cb].(running := true, runs := s.cbs[cb].runs + 1)), o,
                   s.ops[o].(qpc := QRunning(cb, s.ops[o].qpc.more)))
  }

  /** The callback returns; unless its destructor ran inside it, it is marked completed. */
  ghost predicate ReqReturn(s: State, o: OpId, s': State) {
    && AtReq(s, o) && s.ops[o].qpc.QRunning? && s.ops[o].qpc.cb in s.cbs
    && var cb, c := s.ops[o].qpc.cb, s.cbs[s.ops[o].qpc.cb];
       var done := SetCb(s, cb, c.(running := false, completed := !c.inside));
       if s.ops[o].qpc.more then s' == SetOp(done, o, s.ops[o].(qpc := QLoad2))
           else s' == EndOp(done, o).(active := None)
  }

  ghost predicate ReqLoad2(s: State, o: OpId, s': State) {
    && AtReq(s, o) && s.ops[o].qpc.QLoad2?
    && s' == if IsLocked(s.word) then s else SetOp(s, o, s.ops[o].(qpc := QCas2(s.word)))
  }

  ghost predicate ReqCas2(s: State, o: OpId, s': State) {
    && AtReq(s, o) && s.ops[o].qpc.QCas2?
    && if s.word == s.ops[o].qpc.seen then
         s' == SetOp(s, o, s.ops[o].(qpc := QDequeue)).(word := s.word + LOCKED, lock := Some(o))
       else s' == SetOp(s, o, s.ops[o].(qpc := QLoad2))
  }

  ghost predicate ReqEnd(s: State, o: OpId, s': State) {
    && AtReq(s, o) && s.ops[o].qpc.QEnd? && s.word >= LOCKED
    && s' == EndOp(s, o).(word := s.word - LOCKED, lock := None, active := None)
  }

  // ---------------------------------------------------------------- deregistration

  /** A thread in the middle of signalling runs other code only inside a callback. */
  ghost predicate MayRun(s: State, t: Tid) {
    forall p :: p in s.ops && Signalling(s.ops[p]) && s.ops[p].thread == t ==> s.ops[p].qpc.QRunning?
  }

  ghost predicate BeginRem(s: State, o: OpId, cb: CbId, t: Tid, s': State) {
    && o !in s.ops && cb in s.cbs && (s.cbs[cb].status.Listed? || s.cbs[cb].status.Taken?) && !s.cbs[cb].removing &&
        MayRun(s, t)
    && (forall p :: p in s.ops && s.ops[p].Reg? ==> s.ops[p].cb != cb)
    && s' == SetOp(SetCb(s, cb, s.cbs[cb].(removing := true)), o, Rem(cb, t, MLoad))
  }

  ghost predicate AtRem(s: State, o: OpId) {
    o in s.ops && s.ops[o].Rem? && s.ops[o].cb in s.cbs && MayRun(s, s.ops[o].thread)
  }

  ghost predicate RemLoad(s: State, o: OpId, s': State) {
    && AtRem(s, o) && s.ops[o].mpc.MLoad?
    && s' == if IsLocked(s.word) then s else SetOp(s, o, s.ops[o].(mpc := MCas(s.word)))
  }

  ghost predicate RemCas(s: State, o: OpId, s': State) {
    && AtRem(s, o) && s.ops[o].mpc.MCas?
    && if s.word == s.ops[o].mpc.seen then
         s' == SetOp(s, o, s.ops[o].(mpc := MUnlink)).(word := s.word + LOCKED, lock := Some(o))
       else s' == SetOp(s, o, s.ops[o].(mpc := MLoad))
  }

  function Without(list: seq<CbId>, cb: CbId): seq<CbId> {
    if list == [] then [] else if list[0] == cb then list[1..] else [list[0]] + Without(list[1..], cb)
  }

  ghost predicate RemUnlink(s: State, o: OpId, s': State) {
    && AtRem(s, o) && s.ops[o].mpc.MUnlink?
    && var cb := s.ops[o].cb;
       if cb in s.list then
         s' == SetOp(SetCb(s, cb, s.cbs[cb].(status := Unlinked)), o,
             s.ops[o].(mpc := MUnlockDec)).(list := Without(s.list, cb))
       else s' == SetOp(s, o, s.ops[o].(mpc := MUnlock))
  }

  ghost predicate RemUnlockDec(s: State, o: OpId, s': State) {
    && AtRem(s, o) && s.ops[o].mpc.MUnlockDec? && s.word >= LOCKED + TOKEN
    && var cb := s.ops[o].cb;
       s' == EndOp(SetCb(s, cb, s.cbs[cb].(gone := true)), o).(word := s.word - LOCKED - TOKEN, lock := None,
           tokens := s.tokens - {Of(cb)},
                   destroyed := s.destroyed + if s.word < LOCKED + 2 * TOKEN then 1 else 0)
  }

  ghost predicate RemUnlock(s: State, o: OpId, s': State) {
    && AtRem(s, o) && s.ops[o].mpc.MUnlock? && s.word >= LOCKED
    && s' == SetOp(s, o, s.ops[o].(mpc := MWho)).(word := s.word - LOCKED, lock := None)
  }

  /** On the signalling thread: tell the running callback that it is being destroyed. Elsewhere: wait. */
  ghost predicate RemWho(s: State, o: OpId, s': State) {
    && AtRem(s, o) && s.ops[o].mpc.MWho?
    && var cb := s.ops[o].cb;
       if s.signaller == Some(s.ops[o].thread) then
         s' == SetOp(SetCb(s, cb, s.cbs[cb].(inside := s.cbs[cb].running)), o, s.ops[o].(mpc := MDrop))
       else s' == SetOp(s, o, s.ops[o].(mpc := MWait))
  }

  ghost predicate RemWait(s: State, o: OpId, s': State) {
    && AtRem(s, o) && s.ops[o].mpc.MWait?
    && s' == if s.cbs[s.ops[o].cb].completed then SetOp(s, o, s.ops[o].(mpc := MDrop)) else s
  }

  ghost predicate RemDrop(s: State, o: OpId, s': State) {
    && AtRem(s, o) && s.ops[o].mpc.MDrop? && s.word >= TOKEN
    && var cb := s.ops[o].cb;
       s' == EndOp(SetCb(s, cb, s.cbs[cb].(gone := true)), o).(word := s.word - TOKEN, tokens := s.tokens - {Of(cb)},
                   destroyed := s.destroyed + if s.word < 2 * TOKEN then 1 else 0)
  }

  // ---------------------------------------------------------------- runs

  ghost predicate HandleStep(s: State, s': State) {
    exists n :: NewToken(s, n, s') || NewSource(s, n, s') || DropToken(s, n, s') || DropSource(s, n, s')
  }

  ghost predicate RegStep(s: State, o: OpId, s': State) {
    || RegLoad(s, o, s') || RegCas(s, o, s') || RegPush(s, o, s') || RegUnlock(s, o, s')
    || exists cb, h, move :: BeginReg(s, o, cb, h, move, s')
  }

  ghost predicate ReqStep(s: State, o: OpId, s': State) {
    || ReqLoad(s, o, s') || ReqCas(s, o, s') || ReqName(s, o, s') || ReqDequeue(s, o, s') || ReqUnlock(s, o, s')
    || ReqRun(s, o, s') || ReqReturn(s, o, s') || ReqLoad2(s, o, s') || ReqCas2(s, o, s') || ReqEnd(s, o, s')
    || exists n, t :: BeginReq(s, o, n, t, s')
  }

  ghost predicate RemStep(s: State, o: OpId, s': State) {
    || RemLoad(s, o, s') || RemCas(s, o, s') || RemUnlink(s, o, s') || RemUnlockDec(s, o, s') || RemUnlock(s, o, s')
    || RemWho(s, o, s') || RemWait(s, o, s') || RemDrop(s, o, s')
    || exists cb, t :: BeginRem(s, o, cb, t, s')
  }

  ghost predicate Step(s: State, s': State) {
    HandleStep(s, s') || exists o :: RegStep(s, o, s') || ReqStep(s, o, s') || RemStep(s, o, s')
  }

  ghost predicate Start(s: State) {
    s == State(SOURCE, [], None, map[], map[], false, None, {}, {0}, None, 0)
  }

  ghost predicate IsRun(run: seq<State>) {
    |run| > 0 && Start(run[0]) && forall i :: 0 < i < |run| ==> Step(run[i - 1], run[i])
  }
}
