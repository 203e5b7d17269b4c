/** What holds of a CancellationState between any two steps. */
module CancellationInv {
  import opened Options
  import opened Cancellation

  ghost predicate WordOK(s: State) {
    && s.word == Pack(s.requested, s.lock.Some?, |s.tokens|, |s.sources|)
    && |s.tokens| < 0x8000_0000 && |s.sources| < 0x4000_0000
  }

  ghost predicate LockOK(s: State) {
    && (forall o :: o in s.ops ==> (HasLock(s.ops[o]) <==> s.lock == Some(o)))
    && (forall o :: o in s.ops ==> (Signalling(s.ops[o]) <==> s.active == Some(o)))
    && (s.lock.Some? ==> s.lock.value in s.ops) && (s.active.Some? ==> s.active.value in s.ops)
  }

  function CbOf(op: Op): Option<CbId> {
    match op case Reg(cb, _, _, _) => Some(cb) case Rem(cb, _, _) => Some(cb) case Req(_, _, _) => None
  }

  /** One constructor or destructor at a time works on a callback, and a moved token belongs to one of them. */
  ghost predicate Apart(a: Op, b: Op) {
    && (CbOf(a).Some? ==> CbOf(a) != CbOf(b))
    && (a.Reg? && b.Reg? && (a.move || b.move) ==> a.handle != b.handle)
  }

  ghost predicate ApartOK(s: State) {
    forall o, p :: o in s.ops && p in s.ops && o != p ==> Apart(s.ops[o], s.ops[p])
  }

  predicate Clear(word: nat) { !Requested(word) && !IsLocked(word) }

  ghost predicate RegOK(s: State, op: Op)
    requires op.Reg?
  {
    && Handle(op.handle) in s.tokens && op.cb in s.cbs
    && var c := s.cbs[op.cb];
    && !c.removing && c.status == (if op.rpc.RUnlock? then Listed else Fresh)
    && (op.rpc.RPush? || op.rpc.RUnlock? ==> !s.requested)
    && (op.rpc.RCas? ==> Clear(op.rpc.seen))
  }

  predicate Finished(c: Cb) { c.runs == 1 && c.completed && !c.running }

  ghost predicate RemOK(s: State, op: Op)
    requires op.Rem?
  {
    && op.cb in s.cbs
    && var c := s.cbs[op.cb];
    && c.removing && !c.gone && (!op.mpc.MDrop? ==> !c.inside)
    && (match op.mpc
        case MLoad => c.status.Listed? || c.status.Taken?
        case MCas(seen) => (c.status.Listed? || c.status.Taken?) && !IsLocked(seen)
        case MUnlink => c.status.Listed? || c.status.Taken?
        case MUnlockDec => c.status.Unlinked?
        case MUnlock => c.status.Taken?
        case MWho => c.status.Taken?
        case MWait => c.status.Taken?
        case MDrop => c.status.Taken? && (c.inside || Finished(c)))
  }

  ghost predicate ReqOK(s: State, op: Op)
    requires op.Req?
  {
    && op.source in s.sources
    && (Signalling(op) ==> s.requested && (!op.qpc.QName? ==> s.signaller == Some(op.thread)))
    && (match op.qpc
        case QCas(seen) => Clear(seen)
        case QCas2(seen) => !IsLocked(seen)
        case QUnlock(cb, more) => InHand(s, cb, more) && s.cbs[cb].runs == 0
        case QRun(cb, more) => InHand(s, cb, more) && s.cbs[cb].runs == 0
        case QRunning(cb, more) => InHand(s, cb, more) && s.cbs[cb].running
        case QEnd => s.list == []
        case _ => true)
  }

  ghost predicate InHand(s: State, cb: CbId, more: bool) {
    cb in s.cbs && s.cbs[cb].status.Taken? && (!more ==> s.list == [])
  }

  ghost predicate OpOK(s: State, op: Op) {
    match op
    case Reg(_, _, _, _) => RegOK(s, op)
    case Rem(_, _, _) => RemOK(s, op)
    case Req(_, _, _) => ReqOK(s, op)
  }

  ghost predicate OpsOK(s: State) {
    forall o :: o in s.ops ==> OpOK(s, s.ops[o])
  }

  /** The callback the active request has dequeued and not finished with. */
  function Current(s: State): Option<CbId> {
    if s.active.Some? && s.active.value in s.ops && s.ops[s.active.value].Req? then
      match s.ops[s.active.value].qpc
      case QUnlock(cb, _) => Some(cb)
      case QRun(cb, _) => Some(cb)
      case QRunning(cb, _) => Some(cb)
      case _ => None
    else None
  }

  predicate NowRunning(s: State) {
    s.active.Some? && s.active.value in s.ops && s.ops[s.active.value].Req? && s.ops[s.active.value].qpc.QRunning?
  }

  ghost predicate CbOK(s: State, cb: CbId, c: Cb) {
    && (c.running ==> c.status.Taken? && c.runs == 1 && Current(s) == Some(cb) && NowRunning(s))
    && (c.completed ==> Finished(c) && c.status.Taken?)
    && (match c.status
        case Fresh => c.runs == 0 && !c.removing
        case Listed => c.runs == 0
        case Unlinked => c.runs == 0
        case Skipped => c.runs == 0 && !s.requested && s.sources == {}
        case Inline => c.runs == 1 && s.requested
        case Taken => s.requested && c.runs <= 1 && (c.runs == 0 ==> Current(s) == Some(cb))
                      && (c.runs == 1 ==> c.running || c.completed || c.inside))
    && (c.gone || c.inside ==> c.removing)
    && (c.gone ==> c.status.Unlinked? || (c.status.Taken? && (c.inside || Finished(c))))
    && (c.inside ==> c.status.Taken? && c.runs == 1)
  }

  ghost predicate CbsOK(s: State) {
    forall cb :: cb in s.cbs ==> CbOK(s, cb, s.cbs[cb])
  }

  ghost predicate NoRepeats(list: seq<CbId>) {
    forall i, j :: 0 <= i < j < |list| ==> list[i] != list[j]
  }

  ghost predicate ListOK(s: State) {
    && NoRepeats(s.list)
    && (forall cb :: cb in s.list <==> cb in s.cbs && s.cbs[cb].status.Listed?)
    && (s.requested && s.active.None? ==> s.list == [])
  }

  predicate Registered(c: Cb) { c.status.Listed? || c.status.Taken? || c.status.Unlinked? }

  ghost predicate StillRegistering(s: State, cb: CbId) {
    exists o :: o in s.ops && s.ops[o].Reg? && s.ops[o].cb == cb
  }

  /** A registered callback owns a token reference until its removal gives it back. */
  ghost predicate RefsOK(s: State) {
    forall cb :: Of(cb) in s.tokens <==>
        cb in s.cbs && Registered(s.cbs[cb]) && !s.cbs[cb].gone && !StillRegistering(s, cb)
  }

  ghost predicate DestroyedOK(s: State) {
    s.destroyed == if s.tokens == {} && s.sources == {} then 1 else 0
  }

  ghost predicate Inv(s: State) {
    && WordOK(s) && LockOK(s) && ApartOK(s) && OpsOK(s) && CbsOK(s) && ListOK(s) && RefsOK(s) && DestroyedOK(s)
  }

  // ---------------------------------------------------------------- reading the word

  /** Each test the code makes on the word says what it is meant to say. */
  lemma WordTests(s: State)
    requires WordOK(s)
    ensures Requested(s.word) <==> s.requested
    ensures IsLocked(s.word) <==> s.lock.Some?
    ensures CanBeCancelled(s.word) <==> s.sources != {} || s.requested
    ensures s.lock.None? && !s.requested ==> Clear(s.word)
  {}

  /** The thresholds of the three decrements: the word is below exactly if this was the last reference. */
  lemma DropTests(s: State)
    requires WordOK(s)
    ensures s.tokens != {} ==> s.word >= TOKEN
    ensures s.tokens != {} && s.lock.None? ==> (s.word < 2 * TOKEN <==> |s.tokens| == 1 && s.sources == {})
    ensures s.tokens != {} && s.lock.Some? ==>
        s.word >= LOCKED + TOKEN && (s.word < LOCKED + 2 * TOKEN <==> |s.tokens| == 1 && s.sources == {})
    ensures s.tokens != {} ==> (s.word < 2 * TOKEN <==> |s.tokens| == 1 && s.sources == {})
    ensures s.sources != {} ==> s.word >= SOURCE && (s.word < SOURCE + TOKEN <==> |s.sources| == 1 && s.tokens == {})
  {}
}
