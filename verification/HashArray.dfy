/** AtomicHashArray: open addressing with empty, locked, erased and occupied cells, and the two-stage
    protocol that closes the array to inserts. One step per atomic operation of any number of calls. */
module HashArray {
  import opened Words

  type Key = int
  type OpId = nat

  /** A locked cell records, as history, whose it is. */
  datatype Cell = Empty | Locked(who: OpId) | Erased | Holds(key: Key)

  predicate Settled(c: Cell) { c.Erased? || c.Holds? }

  /** Fixed parameters: capacity_, the bits of kAnchorMask_, the hash and the probe function. */
  datatype Layout = Layout(capacity: nat, maskBits: nat, hash: Key -> nat, quadratic: bool) {
    predicate Valid() { capacity > 0 }
  }

  // ---------------------------------------------------------------- the probe path of a key

  function Anchor(a: Layout, k: Key): nat
    requires a.Valid()
  {
    var probe := Truncate(a.hash(k), a.maskBits);
    if probe < a.capacity then probe else a.hash(k) % a.capacity
  }

  /** Both probe functions: subtract instead of dividing. */
  function Probe(a: Layout, idx: nat, numProbes: nat): int {
    var i := idx + if a.quadratic then numProbes else 1;
    if i < a.capacity then i else i - a.capacity
  }

  /** The cell looked at after n failed probes. */
  function Path(a: Layout, k: Key, n: nat): int
    requires a.Valid()
  {
    if n == 0 then Anchor(a, k) else if Path(a, k, n - 1) < 0 then 0 else Probe(a, Path(a, k, n - 1), n)
  }

  /** One subtraction is enough: every probe of a search lands inside the array. */
  lemma {:induction false} PathInside(a: Layout, k: Key, n: nat)
    requires a.Valid() && n < a.capacity
    ensures 0 <= Path(a, k, n) < a.capacity
  {
    if n > 0 { PathInside(a, k, n - 1); }
  }

  // ---------------------------------------------------------------- calls under way

  datatype InsertPc =
    | Look                                        // is this cell empty?
    | Incr | CheckFull                            // ++numPendingEntries_, then look at isFull_
    | Undo | SpinFull | SpinPending | SetFull | Recheck
    | TryLock | Abandon                           // lock the cell; another thread was faster
    | Build | Failed | Finish | Note              // construct the value; throw or publish; count
    | Await | Compare                             // somebody else's cell

  datatype Op = Insert(k: Key, n: nat, pc: InsertPc) | Find(k: Key, n: nat) | Erase(k: Key, n: nat, found: bool)

  datatype Result =
    | Inserted(idx: nat) | Exists(idx: nat) | Full | Threw
    | Found(idx: nat) | NotFound | Removed(done: bool)

  /** full is isFull_; closed and fullFor are history: no insert can start any more, and the keys for which some
      insert has reported the array full. */
  datatype State = State(a: Layout, cells: seq<Cell>, pending: int, full: nat, ops: map<OpId, Op>, results: map<OpId,
      Result>,
                         closed: bool, fullFor: set<Key>)

  ghost predicate Sane(s: State) {
    s.a.Valid() && |s.cells| == s.a.capacity
  }

  function At(s: State, op: Op): Cell
    requires s.a.Valid()
  {
    var i := Path(s.a, op.k, op.n);
    if 0 <= i < |s.cells| then s.cells[i] else Empty
  }

  function Spot(s: State, op: Op): nat
    requires s.a.Valid()
  {
    var i := Path(s.a, op.k, op.n);
    if 0 <= i then i else 0
  }

  function SetOp(s: State, o: OpId, op: Op): State { s.(ops := s.ops[o := op]) }

  function Return(s: State, o: OpId, r: Result): State { s.(ops := s.ops - {o}, results := s.results[o := r]) }

  function SetCell(s: State, i: nat, c: Cell): State
    requires i < |s.cells|
  {
    s.(cells := s.cells[i := c])
  }

  ghost predicate Begin(s: State, o: OpId, op: Op, s': State) {
    && o !in s.ops && o !in s.results && op.n == 0
    && (op.Insert? ==> op.pc.Look?) && (op.Erase? ==> !op.found)
    && s' == SetOp(s, o, op)
  }

  // ---------------------------------------------------------------- insertInternal

  ghost predicate InsertAt(s: State, o: OpId, pc: InsertPc) {
    Sane(s) && o in s.ops && s.ops[o].Insert? && s.ops[o].pc == pc && Spot(s, s.ops[o]) < |s.cells|
  }

  function Go(s: State, o: OpId, pc: InsertPc): State
    requires o in s.ops && s.ops[o].Insert?
  {
    SetOp(s, o, s.ops[o].(pc := pc))
  }

  ghost predicate DoLook(s: State, o: OpId, s': State) {
    InsertAt(s, o, Look) && s' == Go(s, o, if At(s, s.ops[o]) == Empty then Incr else Await)
  }

  ghost predicate DoIncr(s: State, o: OpId, s': State) {
    InsertAt(s, o, Incr) && s' == Go(s, o, CheckFull).(pending := s.pending + 1)
  }

  ghost predicate DoCheckFull(s: State, o: OpId, s': State) {
    InsertAt(s, o, CheckFull) && s' == Go(s, o, if s.full != 0 then Undo else TryLock)
  }

  ghost predicate DoUndo(s: State, o: OpId, s': State) {
    InsertAt(s, o, Undo) && s' == Go(s, o, SpinFull).(pending := s.pending - 1)
  }

  ghost predicate DoSpinFull(s: State, o: OpId, s': State) {
    InsertAt(s, o, SpinFull) && s' == Go(s, o, if s.full == 2 then SetFull else SpinPending)
  }

  /** With the array marked full and no insert pending, nothing can be added any more. */
  ghost predicate DoSpinPending(s: State, o: OpId, s': State) {
    && InsertAt(s, o, SpinPending)
    && s' == if s.pending == 0 then Go(s, o, SetFull).(closed := true) else Go(s, o, SpinFull)
  }

  ghost predicate DoSetFull(s: State, o: OpId, s': State) {
    InsertAt(s, o, SetFull) && s' == Go(s, o, Recheck).(full := 2)
  }

  ghost predicate DoRecheck(s: State, o: OpId, s': State) {
    && InsertAt(s, o, Recheck)
    && s' == if At(s, s.ops[o]) == Empty then Return(s, o, Full).(fullFor := s.fullFor + {s.ops[o].k})
        else Go(s, o, Await)
  }

  ghost predicate DoTryLock(s: State, o: OpId, s': State) {
    && InsertAt(s, o, TryLock)
    && s' == if At(s, s.ops[o]) == Empty then SetCell(Go(s, o, Build), Spot(s, s.ops[o]), Locked(o))
        else Go(s, o, Abandon)
  }

  ghost predicate DoAbandon(s: State, o: OpId, s': State) {
    InsertAt(s, o, Abandon) && s' == Go(s, o, Await).(pending := s.pending - 1)
  }

  /** The constructor of the value throws, and the cell is empty again; or the key is published. */
  ghost predicate DoBuild(s: State, o: OpId, s': State) {
    && InsertAt(s, o, Build)
    && (s' == SetCell(Go(s, o, Failed), Spot(s, s.ops[o]), Empty) ||
        s' == SetCell(Go(s, o, Finish), Spot(s, s.ops[o]), Holds(s.ops[o].k)))
  }

  ghost predicate DoFailed(s: State, o: OpId, s': State) {
    InsertAt(s, o, Failed) && s' == Return(s, o, Threw).(pending := s.pending - 1)
  }

  ghost predicate DoFinish(s: State, o: OpId, s': State) {
    InsertAt(s, o, Finish) && s' == Go(s, o, Note).(pending := s.pending - 1)
  }

  /** numEntries_ may or may not have reached maxEntries_; storing 1 may undo another thread's 2. */
  ghost predicate DoNote(s: State, o: OpId, s': State) {
    && InsertAt(s, o, Note)
    && (s' == Return(s, o, Inserted(Spot(s, s.ops[o]))) || s' == Return(s, o, Inserted(Spot(s, s.ops[o]))).(full := 1))
  }

  ghost predicate DoAwait(s: State, o: OpId, s': State) {
    InsertAt(s, o, Await) && s' == if At(s, s.ops[o]).Locked? then s else Go(s, o, Compare)
  }

  ghost predicate DoCompare(s: State, o: OpId, s': State) {
    && InsertAt(s, o, Compare)
    && var op, c := s.ops[o], At(s, s.ops[o]);
       s' == if c == Holds(op.k) then Return(s, o, Exists(Spot(s, op)))
             else if c.Empty? || c.Locked? then Go(s, o, Look)
             else if op.n + 1 >= s.a.capacity then Return(s, o, Full).(fullFor := s.fullFor + {op.k})
             else SetOp(s, o, op.(n := op.n + 1, pc := Look))
  }

  // ---------------------------------------------------------------- findInternal and erase

  ghost predicate DoFind(s: State, o: OpId, s': State) {
    && Sane(s) && o in s.ops && s.ops[o].Find?
    && var op, c := s.ops[o], At(s, s.ops[o]);
       s' == if c == Holds(op.k) then Return(s, o, Found(Spot(s, op)))
             else if c.Empty? || op.n + 1 >= s.a.capacity then Return(s, o, NotFound)
             else SetOp(s, o, Find(op.k, op.n + 1))
  }

  ghost predicate DoErase(s: State, o: OpId, s': State) {
    && Sane(s) && o in s.ops && s.ops[o].Erase? && Spot(s, s.ops[o]) < |s.cells|
    && var op, c := s.ops[o], At(s, s.ops[o]);
       if op.found then
         s' == if c == Holds(op.k) then SetCell(Return(s, o, Removed(true)), Spot(s, op), Erased)
             else Return(s, o, Removed(false))
       else
         s' == if c.Empty? || c.Locked? then Return(s, o, Removed(false))
               else if c == Holds(op.k) then SetOp(s, o, op.(found := true))
               else if op.n + 1 >= s.a.capacity then Return(s, o, Removed(false))
               else SetOp(s, o, op.(n := op.n + 1))
  }

  ghost predicate InsertStep(s: State, o: OpId, s': State) {
    || DoLook(s, o, s') || DoIncr(s, o, s') || DoCheckFull(s, o, s') || DoUndo(s, o, s') || DoSpinFull(s, o, s') ||
        DoSpinPending(s, o, s')
    || DoSetFull(s, o, s') || DoRecheck(s, o, s') || DoTryLock(s, o, s') || DoAbandon(s, o, s') ||
        DoBuild(s, o, s') || DoFailed(s, o, s')
    || DoFinish(s, o, s') || DoNote(s, o, s') || DoAwait(s, o, s') || DoCompare(s, o, s')
  }

  ghost predicate StepBy(s: State, o: OpId, s': State) {
    InsertStep(s, o, s') || DoFind(s, o, s') || DoErase(s, o, s') || exists op :: Begin(s, o, op, s')
  }

  ghost predicate Start(s: State) {
    && s.a.Valid() && |s.cells| == s.a.capacity && (forall i :: 0 <= i < |s.cells| ==> s.cells[i] == Empty)
    && s.pending == 0 && s.full == 0 && s.ops == map[] && s.results == map[] && !s.closed && s.fullFor == {}
  }

  ghost predicate Step(s: State, s': State) {
    exists o :: StepBy(s, o, s')
  }

  ghost predicate IsRun(run: seq<State>) {
    |run| > 0 && Start(run[0]) && forall i :: 0 < i < |run| ==> Step(run[i - 1], run[i])
  }
}
