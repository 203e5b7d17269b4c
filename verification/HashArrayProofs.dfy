/** What every interleaving of insert, find and erase keeps in an AtomicHashArray. */
module HashArrayProofs {
  import opened HashArray

  /** The first n cells of k's path are settled, and none of them holds k. */
  ghost predicate Passed(a: Layout, cells: seq<Cell>, k: Key, n: nat)
    requires a.Valid()
  {
    forall j: nat :: j < n ==> PassedAt(a, cells, k, j)
  }

  ghost predicate PassedAt(a: Layout, cells: seq<Cell>, k: Key, j: nat)
    requires a.Valid()
  {
    0 <= Path(a, k, j) < |cells| && Settled(cells[Path(a, k, j)]) && cells[Path(a, k, j)] != Holds(k)
  }

  /** A key stands where a search for it gets to. */
  ghost predicate Placed(a: Layout, cells: seq<Cell>, i: nat, n: nat)
    requires a.Valid() && i < |cells| && cells[i].Holds?
  {
    n < a.capacity && Path(a, cells[i].key, n) == i && Passed(a, cells, cells[i].key, n)
  }

  ghost predicate Reachable(a: Layout, cells: seq<Cell>, i: nat)
    requires a.Valid() && i < |cells| && cells[i].Holds?
  {
    exists n: nat :: Placed(a, cells, i, n)
  }

  ghost predicate CellsOK(s: State)
    requires s.a.Valid()
  {
    forall i :: 0 <= i < |s.cells| && s.cells[i].Holds? ==> Reachable(s.a, s.cells, i)
  }

  /** Counted in numPendingEntries_. */
  predicate Pending(op: Op) {
    op.Insert? && (op.pc.CheckFull? || op.pc.Undo? || op.pc.TryLock? || op.pc.Abandon? || op.pc.Build? ||
        op.pc.Failed? || op.pc.Finish?)
  }

  ghost function PendingOps(ops: map<OpId, Op>): set<OpId> {
    set o | o in ops && Pending(ops[o])
  }

  /** The insert has looked at isFull_ and found it clear. */
  predicate Entitled(op: Op) {
    op.Insert? && (op.pc.TryLock? || op.pc.Build?)
  }

  predicate SawFull(op: Op) {
    op.Insert? && (op.pc.Undo? || op.pc.SpinFull? || op.pc.SpinPending? || op.pc.SetFull? || op.pc.Recheck?)
  }

  ghost predicate OpOK(s: State, o: OpId, op: Op)
    requires s.a.Valid()
  {
    && op.n < s.a.capacity
    && (op.Insert? ==> Passed(s.a, s.cells, op.k, op.n))
    && (op.Insert? && op.pc.Build? ==> At(s, op) == Locked(o))
    && (SawFull(op) ==> s.full != 0)
    && (op.Insert? && (op.pc.SetFull? || op.pc.Recheck?) ==> s.closed)
  }

  ghost predicate OpsOK(s: State)
    requires s.a.Valid()
  {
    forall o :: o in s.ops ==> OpOK(s, o, s.ops[o])
  }

  /** A locked cell belongs to the insert that is building there. */
  ghost predicate LocksOK(s: State)
    requires s.a.Valid()
  {
    forall i :: 0 <= i < |s.cells| && s.cells[i].Locked? ==> LockOwner(s, i)
  }

  ghost predicate LockOwner(s: State, i: nat)
    requires s.a.Valid() && i < |s.cells| && s.cells[i].Locked?
  {
    var o := s.cells[i].who;
    && o in s.ops && s.ops[o].Insert? && s.ops[o].pc.Build?
    && Path(s.a, s.ops[o].k, s.ops[o].n) == i
  }

  ghost predicate CloseOK(s: State) {
    && (s.full == 2 ==> s.closed)
    && (s.closed ==> s.full != 0 && forall o :: o in s.ops ==> !Entitled(s.ops[o]))
  }

  /** k can never get in: its whole path is taken, or the array is closed and its path ends in an empty cell. */
  ghost predicate Barred(s: State, k: Key)
    requires s.a.Valid()
  {
    exists n: nat :: n <= s.a.capacity && Passed(s.a, s.cells, k, n) && (n == s.a.capacity || DeadEnd(s, k, n))
  }

  ghost predicate DeadEnd(s: State, k: Key, n: nat)
    requires s.a.Valid()
  {
    s.closed && 0 <= Path(s.a, k, n) < |s.cells| && s.cells[Path(s.a, k, n)] == Empty
  }

  ghost predicate FullOK(s: State)
    requires s.a.Valid()
  {
    forall k :: k in s.fullFor ==> Barred(s, k)
  }

  ghost predicate Inv(s: State) {
    && Sane(s) && CellsOK(s) && s.pending == |PendingOps(s.ops)| && OpsOK(s) && LocksOK(s) && CloseOK(s) && FullOK(s)
  }

  // ---------------------------------------------------------------- settled cells stay settled

  /** What any step may do to a cell. */
  predicate CellMoves(c: Cell, d: Cell) {
    d == c || (c.Empty? && d.Locked?) || (c.Locked? && (d.Empty? || d.Holds?)) || (c.Holds? && d.Erased?)
  }

  ghost predicate CellsMove(a: seq<Cell>, b: seq<Cell>) {
    |b| == |a| && forall i :: 0 <= i < |a| ==> CellMoves(a[i], b[i])
  }

  lemma PassedStable(a: Layout, c: seq<Cell>, d: seq<Cell>, k: Key, n: nat)
    requires a.Valid() && Passed(a, c, k, n) && CellsMove(c, d)
    ensures Passed(a, d, k, n)
  {
    forall j: nat | j < n ensures PassedAt(a, d, k, j) { assert PassedAt(a, c, k, j); }
  }

  // ---------------------------------------------------------------- the parts of the invariant

  lemma CellsKept(s: State, s': State)
    requires s.a.Valid() && s'.a == s.a && CellsOK(s) && CellsMove(s.cells, s'.cells)
    requires forall i ::
      0 <= i < |s'.cells| && s'.cells[i].Holds? && !s.cells[i].Holds? ==> Reachable(s'.a, s'.cells, i)
    ensures CellsOK(s')
  {
    forall i | 0 <= i < |s'.cells| && s'.cells[i].Holds? ensures Reachable(s'.a, s'.cells, i) {
      if s.cells[i].Holds? {
        assert Reachable(s.a, s.cells, i) && CellMoves(s.cells[i], s'.cells[i]);
        var n: nat :| Placed(s.a, s.cells, i, n);
        PassedStable(s.a, s.cells, s'.cells, s.cells[i].key, n);
        assert Placed(s'.a, s'.cells, i, n);
      }
    }
  }

  lemma OpsKept(s: State, s': State, o: OpId)
    requires Sane(s) && s'.a == s.a && OpsOK(s) && LocksOK(s) && CellsMove(s.cells, s'.cells) &&
        (s.full != 0 ==> s'.full != 0) && (s.closed ==> s'.closed)
    requires forall p :: p in s'.ops && p != o ==> p in s.ops && s'.ops[p] == s.ops[p]
    requires forall i :: 0 <= i < |s.cells| && s.cells[i].Locked? && s.cells[i].who != o ==> s'.cells[i] == s.cells[i]
    requires o in s'.ops ==> OpOK(s', o, s'.ops[o])
    ensures OpsOK(s')
  {
    forall p | p in s'.ops ensures OpOK(s', p, s'.ops[p]) {
      if p != o {
        assert OpOK(s, p, s.ops[p]);
        if s.ops[p].Insert? { PassedStable(s.a, s.cells, s'.cells, s.ops[p].k, s.ops[p].n); }
      }
    }
  }

  lemma FullKept(s: State, s': State)
    requires Sane(s) && s'.a == s.a && FullOK(s) && CellsMove(s.cells, s'.cells) && (s.closed ==> s'.closed) &&
        s'.fullFor == s.fullFor
    requires s.closed ==> forall i :: 0 <= i < |s.cells| && s.cells[i] == Empty ==> s'.cells[i] == Empty
    ensures FullOK(s')
  {
    forall k | k in s'.fullFor ensures Barred(s', k) { assert Barred(s, k); BarredStable(s, s', k); }
  }

  lemma BarredStable(s: State, s': State, k: Key)
    requires Sane(s) && s'.a == s.a && Barred(s, k) && CellsMove(s.cells, s'.cells) && (s.closed ==> s'.closed)
    requires s.closed ==> forall i :: 0 <= i < |s.cells| && s.cells[i] == Empty ==> s'.cells[i] == Empty
    ensures Barred(s', k)
  {
    var n: nat :| n <= s.a.capacity && Passed(s.a, s.cells, k, n) && (n == s.a.capacity || DeadEnd(s, k, n));
    PassedStable(s.a, s.cells, s'.cells, k, n);
    assert n == s'.a.capacity || DeadEnd(s', k, n);
  }

  lemma PendingCount(ops: map<OpId, Op>, o: OpId, op: Op)
    requires o in ops
    ensures |PendingOps(ops[o := op])| == |PendingOps(ops)| - (if Pending(ops[o]) then 1
        else 0) + (if Pending(op) then 1 else 0)
  {
    var rest := PendingOps(ops) - {o};
    assert PendingOps(ops) == if Pending(ops[o]) then rest + {o} else rest;
    assert PendingOps(ops[o := op]) == if Pending(op) then rest + {o} else rest;
  }

  lemma PendingEnd(ops: map<OpId, Op>, o: OpId)
    requires o in ops
    ensures |PendingOps(ops - {o})| == |PendingOps(ops)| - (if Pending(ops[o]) then 1 else 0)
  {
    var rest := PendingOps(ops) - {o};
    assert PendingOps(ops) == if Pending(ops[o]) then rest + {o} else rest;
    assert PendingOps(ops - {o}) == rest;
  }

  lemma SameCells(cells: seq<Cell>)
    ensures CellsMove(cells, cells)
  {}

  lemma OpAt(s: State, o: OpId)
    requires Inv(s) && o in s.ops
    ensures OpOK(s, o, s.ops[o]) && 0 <= Path(s.a, s.ops[o].k, s.ops[o].n) < |s.cells| &&
        Spot(s, s.ops[o]) == Path(s.a, s.ops[o].k, s.ops[o].n)
    ensures At(s, s.ops[o]) == s.cells[Path(s.a, s.ops[o].k, s.ops[o].n)]
  {
    assert OpOK(s, o, s.ops[o]);
    PathInside(s.a, s.ops[o].k, s.ops[o].n);
  }

  // ---------------------------------------------------------------- steps that leave the cells alone

  /** One call moves on; counters change as the code changes them. */
  lemma MoveStep(s: State, o: OpId, s': State)
    requires Inv(s) && o in s.ops && o in s'.ops && s' == SetOp(s, o, s'.ops[o]).(pending := s'.pending,
        full := s'.full, closed := s'.closed)
    requires s'.pending == s.pending - (if Pending(s.ops[o]) then 1 else 0) + (if Pending(s'.ops[o]) then 1 else 0)
    requires !s.ops[o].Insert? || !s.ops[o].pc.Build?
    requires (s.full != 0 ==> s'.full != 0) && (s.closed ==> s'.closed) && CloseOK(s') && OpOK(s', o, s'.ops[o])
    ensures Inv(s')
  {
    hide CloseOK, OpOK;
    SameCells(s.cells);
    PendingCount(s.ops, o, s'.ops[o]);
    CellsKept(s, s');
    OpsKept(s, s', o);
    LocksKept(s, s', o);
    FullKept(s, s');
    hide CellsOK, OpsOK, LocksOK, FullOK, PendingOps;
  }

  lemma LocksKept(s: State, s': State, o: OpId)
    requires Sane(s) && s'.a == s.a && LocksOK(s) && s'.cells == s.cells && o in s.ops &&
        (!s.ops[o].Insert? || !s.ops[o].pc.Build?)
    requires forall p :: p in s.ops && p != o ==> p in s'.ops && s'.ops[p] == s.ops[p]
    ensures LocksOK(s')
  {
    forall i | 0 <= i < |s'.cells| && s'.cells[i].Locked? ensures LockOwner(s', i) { assert LockOwner(s, i); }
  }

  /** A call returns. */
  lemma ReturnStep(s: State, o: OpId, r: Result, s': State)
    requires Inv(s) && o in s.ops && s' == Return(s, o, r).(pending := s'.pending, full := s'.full,
        fullFor := s'.fullFor)
    requires s'.pending == s.pending - (if Pending(s.ops[o]) then 1 else 0) &&
        (!s.ops[o].Insert? || !s.ops[o].pc.Build?)
    requires (s.full != 0 ==> s'.full != 0) && CloseOK(s') && FullOK(s')
    ensures Inv(s')
  {
    hide CloseOK, FullOK;
    SameCells(s.cells);
    PendingEnd(s.ops, o);
    CellsKept(s, s');
    OpsKept(s, s', o);
    LocksKept(s, s', o);
    hide CellsOK, OpsOK, LocksOK, PendingOps;
  }

  lemma Closed(s: State)
    requires Inv(s)
    ensures CloseOK(s) && Sane(s)
  {}

  lemma LookInv(s: State, o: OpId, s': State)
    requires Inv(s) && (DoLook(s, o, s') || DoIncr(s, o, s') || DoAwait(s, o, s'))
    ensures Inv(s')
  {
    hide Inv, Path, Passed;
    OpAt(s, o);
    Closed(s);
    if s' != s { MoveStep(s, o, s'); }
  }

  lemma CheckInv(s: State, o: OpId, s': State)
    requires Inv(s) && (DoCheckFull(s, o, s') || DoUndo(s, o, s'))
    ensures Inv(s')
  {
    hide Inv, Path, Passed;
    OpAt(s, o);
    Closed(s);
    MoveStep(s, o, s');
  }

  lemma SpinInv(s: State, o: OpId, s': State)
    requires Inv(s) && (DoSpinFull(s, o, s') || DoSetFull(s, o, s'))
    ensures Inv(s')
  {
    hide Inv, Path, Passed;
    OpAt(s, o);
    Closed(s);
    MoveStep(s, o, s');
  }

  lemma LeaveInv(s: State, o: OpId, s': State)
    requires Inv(s) && (DoAbandon(s, o, s') || DoFinish(s, o, s'))
    ensures Inv(s')
  {
    hide Inv, Path, Passed;
    OpAt(s, o);
    Closed(s);
    MoveStep(s, o, s');
  }

  /** The moment the array closes: nobody is between taking part in the count and leaving it. */
  lemma SpinPendingInv(s: State, o: OpId, s': State)
    requires Inv(s) && DoSpinPending(s, o, s')
    ensures Inv(s')
  {
    hide Inv, Path, Passed;
    OpAt(s, o);
    Closed(s);
    if s.pending == 0 { NobodyPending(s); }
    assert CloseOK(s');
    MoveStep(s, o, s');
  }

  lemma NobodyPending(s: State)
    requires Inv(s) && s.pending == 0
    ensures forall p :: p in s.ops ==> !Pending(s.ops[p])
  {
    hide CellsOK, OpsOK, LocksOK, CloseOK, FullOK;
    forall p | p in s.ops ensures !Pending(s.ops[p]) {
      assert Pending(s.ops[p]) ==> p in PendingOps(s.ops);
    }
  }

  lemma RecheckInv(s: State, o: OpId, s': State)
    requires Inv(s) && DoRecheck(s, o, s')
    ensures Inv(s')
  {
    hide Inv, Path;
    OpAt(s, o);
    Closed(s);
    var op := s.ops[o];
    if At(s, op) == Empty {
      assert DeadEnd(s', op.k, op.n);
      FullAdded(s, s', op.k, op.n);
      ReturnStep(s, o, Full, s');
    } else {
      MoveStep(s, o, s');
    }
  }

  lemma FullAdded(s: State, s': State, k: Key, n: nat)
    requires Inv(s) && s'.a == s.a && s'.cells == s.cells && s'.closed == s.closed && s'.fullFor == s.fullFor + {k}
    requires n <= s.a.capacity && Passed(s.a, s.cells, k, n) && (n == s.a.capacity || DeadEnd(s', k, n))
    ensures FullOK(s')
  {
    hide CellsOK, OpsOK, LocksOK, CloseOK, PendingOps;
    SameCells(s.cells);
    forall x | x in s'.fullFor ensures Barred(s', x) {
      if x in s.fullFor { assert Barred(s, x); BarredStable(s, s', x); }
    }
  }

  lemma CompareInv(s: State, o: OpId, s': State)
    requires Inv(s) && DoCompare(s, o, s')
    ensures Inv(s')
  {
    hide Inv;
    OpAt(s, o);
    Closed(s);
    var op, c := s.ops[o], At(s, s.ops[o]);
    hide Path;
    if c == Holds(op.k) {
      FullSame(s, s');
      ReturnStep(s, o, Exists(Spot(s, op)), s');
    } else if c.Empty? || c.Locked? {
      hide Passed;
      MoveStep(s, o, s');
    } else {
      OneMore(s, op.k, op.n);
      if op.n + 1 >= s.a.capacity {
        FullAdded(s, s', op.k, op.n + 1);
        ReturnStep(s, o, Full, s');
      } else {
        hide Passed;
        MoveStep(s, o, s');
      }
    }
  }

  lemma OneMore(s: State, k: Key, n: nat)
    requires Sane(s) && Passed(s.a, s.cells, k, n) && 0 <= Path(s.a, k, n) < |s.cells|
    requires Settled(s.cells[Path(s.a, k, n)]) && s.cells[Path(s.a, k, n)] != Holds(k)
    ensures Passed(s.a, s.cells, k, n + 1)
  {
    assert PassedAt(s.a, s.cells, k, n);
  }

  lemma FullSame(s: State, s': State)
    requires Inv(s) && s'.a == s.a && s'.cells == s.cells && s'.closed == s.closed && s'.fullFor == s.fullFor
    ensures FullOK(s')
  {
    SameCells(s.cells);
    FullKept(s, s');
  }

  lemma DoneInv(s: State, o: OpId, s': State)
    requires Inv(s) && (DoFailed(s, o, s') || DoNote(s, o, s'))
    ensures Inv(s')
  {
    hide Inv, Path;
    OpAt(s, o);
    Closed(s);
    NoteCloses(s, o, s');
    FullSame(s, s');
    ReturnStep(s, o, s'.results[o], s');
  }

  lemma NoteCloses(s: State, o: OpId, s': State)
    requires CloseOK(s) && o in s.ops && s'.ops == s.ops - {o} && s'.closed == s.closed &&
        (s'.full == s.full || s'.full == 1)
    ensures CloseOK(s')
  {}

  lemma FindInv(s: State, o: OpId, s': State)
    requires Inv(s) && DoFind(s, o, s')
    ensures Inv(s')
  {
    hide Inv, Path, Passed;
    OpAt(s, o);
    Closed(s);
    if o in s'.ops {
      MoveStep(s, o, s');
    } else {
      NoteCloses(s, o, s');
      FullSame(s, s');
      ReturnStep(s, o, s'.results[o], s');
    }
  }

  // ---------------------------------------------------------------- steps that write a cell

  /** One cell changes as cells may, one call moves on or returns. */
  lemma WriteStep(s: State, o: OpId, i: nat, s': State)
    requires Inv(s) && o in s.ops && i < |s.cells| == |s'.cells| && CellMoves(s.cells[i], s'.cells[i])
    requires s' == s.(cells := s.cells[i := s'.cells[i]], ops := s'.ops, results := s'.results)
    requires s'.ops == s.ops - {o} || (o in s'.ops && s'.ops == s.ops[o := s'.ops[o]])
    requires o in s'.ops ==> Pending(s'.ops[o]) == Pending(s.ops[o]) && OpOK(s', o, s'.ops[o])
    requires o !in s'.ops ==> !Pending(s.ops[o])
    requires s'.cells[i].Holds? && !s.cells[i].Holds? ==> Reachable(s'.a, s'.cells, i)
    requires s.cells[i].Locked? ==> s.cells[i].who == o
    requires LocksOK(s') && CloseOK(s') && (s.closed ==> s.cells[i] != Empty)
    ensures Inv(s') && CellsMove(s.cells, s'.cells)
  {
    hide OpOK, Reachable, CloseOK, Path, Passed;
    assert CellsMove(s.cells, s'.cells);
    if o in s'.ops { PendingCount(s.ops, o, s'.ops[o]); } else { PendingEnd(s.ops, o); }
    CellsKept(s, s');
    OpsKept(s, s', o);
    FullKept(s, s');
    hide CellsOK, OpsOK, FullOK, PendingOps;
  }

  lemma TryLockInv(s: State, o: OpId, s': State)
    requires Inv(s) && DoTryLock(s, o, s')
    ensures Inv(s') && CellsMove(s.cells, s'.cells)
  {
    hide Inv, Path;
    OpAt(s, o);
    Closed(s);
    var i := Spot(s, s.ops[o]);
    if At(s, s.ops[o]) == Empty {
      LocksAt(s, s', o, i);
      SameMove(s.cells, i, Locked(o));
      PassedStable(s.a, s.cells, s'.cells, s.ops[o].k, s.ops[o].n);
      hide Passed;
      WriteStep(s, o, i, s');
    } else {
      hide Passed;
      MoveStep(s, o, s');
      SameCells(s.cells);
    }
  }

  lemma SameMove(cells: seq<Cell>, i: nat, c: Cell)
    requires i < |cells| && CellMoves(cells[i], c)
    ensures CellsMove(cells, cells[i := c])
  {}

  lemma LocksAt(s: State, s': State, o: OpId, i: nat)
    requires Inv(s) && o in s.ops && i < |s.cells| && Path(s.a, s.ops[o].k, s.ops[o].n) == i
    requires s.ops[o].Insert? && s.ops[o].pc.TryLock? && s'.a == s.a && s'.cells == s.cells[i := Locked(o)]
    requires s'.ops == s.ops[o := s.ops[o].(pc := Build)]
    ensures LocksOK(s')
  {
    hide CellsOK, OpsOK, CloseOK, FullOK, Path, PendingOps;
    forall j | 0 <= j < |s'.cells| && s'.cells[j].Locked? ensures LockOwner(s', j) {
      if j != i { assert LockOwner(s, j); }
    }
  }

  lemma LocksGone(s: State, s': State, o: OpId, i: nat)
    requires Inv(s) && i < |s.cells| && s'.a == s.a && |s'.cells| == |s.cells| &&
        s'.cells == s.cells[i := s'.cells[i]] && !s'.cells[i].Locked?
    requires forall j :: 0 <= j < |s.cells| && s.cells[j] == Locked(o) ==> j == i
    requires forall p :: p in s.ops && p != o ==> p in s'.ops && s'.ops[p] == s.ops[p]
    ensures LocksOK(s')
  {
    hide CellsOK, OpsOK, CloseOK, FullOK, Path, PendingOps;
    forall j | 0 <= j < |s'.cells| && s'.cells[j].Locked? ensures LockOwner(s', j) { assert LockOwner(s, j); }
  }

  lemma OwnLock(s: State, o: OpId, i: nat)
    requires Inv(s) && o in s.ops && Path(s.a, s.ops[o].k, s.ops[o].n) == i
    ensures forall j :: 0 <= j < |s.cells| && s.cells[j] == Locked(o) ==> j == i
  {
    hide CellsOK, OpsOK, CloseOK, FullOK, Path, PendingOps;
    forall j | 0 <= j < |s.cells| && s.cells[j] == Locked(o) ensures j == i { assert LockOwner(s, j); }
  }

  /** Publishing a key, or giving the cell back after the value's constructor threw. */
  lemma BuildInv(s: State, o: OpId, s': State)
    requires Inv(s) && DoBuild(s, o, s')
    ensures Inv(s') && CellsMove(s.cells, s'.cells)
  {
    hide Inv, Path;
    OpAt(s, o);
    Closed(s);
    var op, i := s.ops[o], Spot(s, s.ops[o]);
    OwnLock(s, o, i);
    LocksGone(s, s', o, i);
    SameMove(s.cells, i, s'.cells[i]);
    PassedStable(s.a, s.cells, s'.cells, op.k, op.n);
    if s'.cells[i].Holds? { assert Placed(s'.a, s'.cells, i, op.n); }
    hide Passed, Placed;
    WriteStep(s, o, i, s');
  }

  lemma EraseInv(s: State, o: OpId, s': State)
    requires Inv(s) && DoErase(s, o, s')
    ensures Inv(s') && CellsMove(s.cells, s'.cells)
  {
    hide Inv, Path, Passed;
    OpAt(s, o);
    Closed(s);
    var op, i := s.ops[o], Spot(s, s.ops[o]);
    if o in s'.ops {
      MoveStep(s, o, s');
      SameCells(s.cells);
    } else if s'.cells == s.cells {
      NoteCloses(s, o, s');
      FullSame(s, s');
      ReturnStep(s, o, s'.results[o], s');
      SameCells(s.cells);
    } else {
      NoteCloses(s, o, s');
      NoLockOf(s, o);
      LocksGone(s, s', o, i);
      WriteStep(s, o, i, s');
    }
  }

  lemma NoLockOf(s: State, o: OpId)
    requires Inv(s) && o in s.ops && !s.ops[o].Insert?
    ensures forall j :: 0 <= j < |s.cells| ==> s.cells[j] != Locked(o)
  {
    hide CellsOK, OpsOK, CloseOK, FullOK, Path, PendingOps;
    forall j | 0 <= j < |s.cells| ensures s.cells[j] != Locked(o) { if s.cells[j].Locked? { assert LockOwner(s, j); } }
  }

  lemma BeginInv(s: State, o: OpId, op: Op, s': State)
    requires Inv(s) && Begin(s, o, op, s')
    ensures Inv(s')
  {
    SameCells(s.cells);
    assert PendingOps(s'.ops) == PendingOps(s.ops);
    CellsKept(s, s');
    OpsKept(s, s', o);
    forall i | 0 <= i < |s'.cells| && s'.cells[i].Locked? ensures LockOwner(s', i) { assert LockOwner(s, i); }
    FullKept(s, s');
    hide CellsOK, OpsOK, FullOK, PendingOps;
  }

  // ---------------------------------------------------------------- every run

  lemma InsertStepInv(s: State, o: OpId, s': State)
    requires Inv(s) && InsertStep(s, o, s')
    ensures Inv(s') && CellsMove(s.cells, s'.cells)
  {
    SameCells(s.cells);
    hide Inv, CellsMove, DoRecheck, DoCompare, DoTryLock, DoBuild, DoSpinPending;
    if DoTryLock(s, o, s') { TryLockInv(s, o, s'); }
    else if DoBuild(s, o, s') { BuildInv(s, o, s'); }
    else if DoRecheck(s, o, s') { RecheckInv(s, o, s'); RecheckCells(s, o, s'); }
    else if DoCompare(s, o, s') { CompareInv(s, o, s'); RecheckCells(s, o, s'); }
    else if DoSpinPending(s, o, s') { SpinPendingInv(s, o, s'); RecheckCells(s, o, s'); }
    else if DoLook(s, o, s') || DoIncr(s, o, s') || DoAwait(s, o, s') { LookInv(s, o, s'); }
    else if DoCheckFull(s, o, s') || DoUndo(s, o, s') { CheckInv(s, o, s'); }
    else if DoSpinFull(s, o, s') || DoSetFull(s, o, s') { SpinInv(s, o, s'); }
    else if DoAbandon(s, o, s') || DoFinish(s, o, s') { LeaveInv(s, o, s'); }
    else { DoneInv(s, o, s'); }
  }

  lemma RecheckCells(s: State, o: OpId, s': State)
    requires DoRecheck(s, o, s') || DoCompare(s, o, s') || DoSpinPending(s, o, s')
    ensures s'.cells == s.cells
  {
    hide Path;
  }

  lemma StepInv(s: State, o: OpId, s': State)
    requires Inv(s) && StepBy(s, o, s')
    ensures Inv(s') && CellsMove(s.cells, s'.cells)
  {
    SameCells(s.cells);
    hide Inv, CellsMove, InsertStep, DoErase;
    if InsertStep(s, o, s') { InsertStepInv(s, o, s'); }
    else if DoErase(s, o, s') { EraseInv(s, o, s'); }
    else if DoFind(s, o, s') { FindInv(s, o, s'); }
    else { var op :| Begin(s, o, op, s'); BeginInv(s, o, op, s'); }
  }

  lemma StartInv(s: State)
    requires Start(s)
    ensures Inv(s)
  {
    assert PendingOps(s.ops) == {};
  }

  lemma {:induction false} RunInv(run: seq<State>, i: nat)
    requires IsRun(run) && i < |run|
    ensures Inv(run[i])
  {
    hide Inv, Start, StepBy;
    if i == 0 {
      StartInv(run[0]);
    } else {
      RunInv(run, i - 1);
      assert Step(run[i - 1], run[i]);
      var o :| StepBy(run[i - 1], o, run[i]);
      StepInv(run[i - 1], o, run[i]);
    }
  }

  // ---------------------------------------------------------------- what this means for the callers

  lemma {:induction false} RunMoves(run: seq<State>, i: nat, j: nat, c: nat)
    requires IsRun(run) && i <= j < |run| && c < |run[i].cells| && Settled(run[i].cells[c])
    ensures |run[j].cells| == |run[i].cells| && (run[j].cells[c] == run[i].cells[c] || run[j].cells[c] == Erased)
  {
    hide Inv, Start, StepBy;
    if i < j {
      RunMoves(run, i, j - 1, c);
      RunInv(run, j - 1);
      assert Step(run[j - 1], run[j]);
      var o :| StepBy(run[j - 1], o, run[j]);
      StepInv(run[j - 1], o, run[j]);
      assert CellMoves(run[j - 1].cells[c], run[j].cells[c]);
    }
  }

  /** A cell with a user key or an erased mark never becomes empty or locked again, nor gets another key. */
  lemma SettledForEver(run: seq<State>, i: nat, j: nat, c: nat)
    requires IsRun(run) && i <= j < |run| && c < |run[i].cells| && Settled(run[i].cells[c])
    ensures c < |run[j].cells| && Settled(run[j].cells[c]) &&
        (run[j].cells[c].Holds? ==> run[j].cells[c] == run[i].cells[c])
  {
    RunMoves(run, i, j, c);
  }

  ghost predicate SettledAt(s: State, k: Key, j: nat)
    requires s.a.Valid()
  {
    0 <= Path(s.a, k, j) < |s.cells| && Settled(s.cells[Path(s.a, k, j)])
  }

  ghost predicate SettledBefore(s: State, k: Key, n: nat)
    requires s.a.Valid()
  {
    forall j: nat :: j < n ==> SettledAt(s, k, j)
  }

  /** A live key is found on its own path behind settled cells only, and it is live in one cell only. */
  lemma LiveOnce(run: seq<State>, i: nat, c: nat, d: nat, k: Key)
    requires IsRun(run) && i < |run| && c < |run[i].cells| && d < |run[i].cells|
    requires run[i].cells[c] == Holds(k) && run[i].cells[d] == Holds(k)
    ensures c == d
    ensures run[i].a.Valid()
    ensures exists n: nat :: n < run[i].a.capacity && Path(run[i].a, k, n) == c && SettledBefore(run[i], k, n)
  {
    RunInv(run, i);
    var s := run[i];
    assert Reachable(s.a, s.cells, c) && Reachable(s.a, s.cells, d);
    var n: nat :| Placed(s.a, s.cells, c, n);
    var m: nat :| Placed(s.a, s.cells, d, m);
    assert m < n ==> PassedAt(s.a, s.cells, k, m);
    assert n < m ==> PassedAt(s.a, s.cells, k, n);
    forall j: nat | j < n ensures SettledAt(s, k, j) { assert PassedAt(s.a, s.cells, k, j); }
    assert SettledBefore(s, k, n);
  }

  /** Once an insert of k has reported the array full, k is live in none of its cells, then or ever after. */
  lemma NeverLiveAfterFull(run: seq<State>, i: nat, j: nat, k: Key, c: nat)
    requires IsRun(run) && i <= j < |run| && k in run[i].fullFor && c < |run[j].cells|
    ensures run[j].cells[c] != Holds(k)
  {
    FullForGrows(run, i, j, k);
    RunInv(run, j);
    BarredIsNotLive(run[j], k, c);
  }

  lemma BarredIsNotLive(s: State, k: Key, c: nat)
    requires Inv(s) && k in s.fullFor && c < |s.cells|
    ensures s.cells[c] != Holds(k)
  {
    assert Barred(s, k);
    var n: nat :| n <= s.a.capacity && Passed(s.a, s.cells, k, n) && (n == s.a.capacity || DeadEnd(s, k, n));
    forall m: nat ensures !(s.cells[c] == Holds(k) && Placed(s.a, s.cells, c, m)) {
      assert m < n ==> PassedAt(s.a, s.cells, k, m);
      assert n < m && Passed(s.a, s.cells, k, m) ==> PassedAt(s.a, s.cells, k, n);
    }
    assert s.cells[c].Holds? ==> Reachable(s.a, s.cells, c);
  }

  /** A step of one call touches no other call and never takes back a report. */
  ghost predicate Footprint(s: State, o: OpId, s': State) {
    && s'.a == s.a && s.fullFor <= s'.fullFor
    && (forall p :: p != o ==> (p in s'.ops <==> p in s.ops) && (p in s.ops ==> s'.ops[p] == s.ops[p]))
    && (forall p :: p != o ==>
        (p in s'.results <==> p in s.results) && (p in s.results ==> s'.results[p] == s.results[p]))
  }

  lemma SetFootprint(s: State, o: OpId, op: Op, s': State)
    requires s'.ops == s.ops[o := op] && s'.results == s.results && s'.a == s.a && s.fullFor <= s'.fullFor
    ensures Footprint(s, o, s')
  {}

  lemma ReturnFootprint(s: State, o: OpId, r: Result, s': State)
    requires s'.ops == s.ops - {o} && s'.results == s.results[o := r] && s'.a == s.a && s.fullFor <= s'.fullFor
    ensures Footprint(s, o, s')
  {}

  lemma EarlyFootprint(s: State, o: OpId, s': State)
    requires DoLook(s, o, s') || DoIncr(s, o, s') || DoCheckFull(s, o, s') || DoUndo(s, o, s') || DoSpinFull(s, o, s')
    ensures Footprint(s, o, s')
  {
    hide Path, Footprint;
    SetFootprint(s, o, s'.ops[o], s');
  }

  lemma MiddleFootprint(s: State, o: OpId, s': State)
    requires DoSpinPending(s, o, s') || DoSetFull(s, o, s') || DoTryLock(s, o, s') || DoAbandon(s, o, s') ||
        DoBuild(s, o, s') || DoFinish(s, o, s')
    ensures Footprint(s, o, s')
  {
    hide Path, Footprint;
    SetFootprint(s, o, s'.ops[o], s');
  }

  lemma LateFootprint(s: State, o: OpId, s': State)
    requires DoRecheck(s, o, s') || DoFailed(s, o, s') || DoNote(s, o, s') || DoAwait(s, o, s') || DoCompare(s, o, s')
    ensures Footprint(s, o, s')
  {
    hide Path, Footprint;
    if s' == s { SetFootprint(s, o, s.ops[o], s'); }
    else if o in s'.ops { SetFootprint(s, o, s'.ops[o], s'); }
    else { ReturnFootprint(s, o, s'.results[o], s'); }
  }

  lemma OtherFootprint(s: State, o: OpId, s': State)
    requires DoFind(s, o, s') || DoErase(s, o, s') || exists op :: Begin(s, o, op, s')
    ensures Footprint(s, o, s')
  {
    hide Path, Footprint;
    if o in s'.ops { SetFootprint(s, o, s'.ops[o], s'); } else { ReturnFootprint(s, o, s'.results[o], s'); }
  }

  lemma StepFootprint(s: State, o: OpId, s': State)
    requires StepBy(s, o, s')
    ensures Footprint(s, o, s')
  {
    hide Footprint, DoLook, DoIncr, DoCheckFull, DoUndo, DoSpinFull, DoSpinPending, DoSetFull, DoTryLock, DoAbandon,
        DoBuild, DoFinish,
      DoRecheck, DoFailed, DoNote, DoAwait, DoCompare, DoFind, DoErase, Begin;
    if DoRecheck(s, o, s') || DoFailed(s, o, s') || DoNote(s, o, s') || DoAwait(s, o, s') || DoCompare(s, o, s') {
        LateFootprint(s, o, s'); }
    else if DoLook(s, o, s') || DoIncr(s, o, s') || DoCheckFull(s, o, s') || DoUndo(s, o, s') ||
        DoSpinFull(s, o, s') { EarlyFootprint(s, o, s'); }
    else if InsertStep(s, o, s') { MiddleFootprint(s, o, s'); }
    else { OtherFootprint(s, o, s'); }
  }

  /** Where new occupied cells come from, and what a report of a full array leaves behind. */
  ghost predicate Outcome(s: State, o: OpId, s': State) {
    && (forall i :: 0 <= i < |s'.cells| && i < |s.cells| && s'.cells[i].Holds? && s'.cells[i] != s.cells[i] ==>
          o in s.ops && s.ops[o].Insert? && s'.cells[i].key == s.ops[o].k)
    && (o in s.ops && o in s'.ops ==> s'.ops[o].Insert? == s.ops[o].Insert? && s'.ops[o].k == s.ops[o].k)
    && (o in s.ops && s.ops[o].Insert? && o !in s'.ops ==>
        o in s'.results && (s'.results[o] == Full ==> s.ops[o].k in s'.fullFor))
    && (o in s.ops ==> (o in s'.ops <==> s'.results == s.results)) && (o !in s.ops ==> s'.results == s.results)
  }

  lemma EarlyOutcome(s: State, o: OpId, s': State)
    requires o !in s.results && (DoLook(s, o, s') || DoIncr(s, o, s') || DoCheckFull(s, o, s') || DoUndo(s, o, s') ||
        DoSpinFull(s, o, s'))
    ensures Outcome(s, o, s')
  {
    hide Path;
  }

  lemma MiddleOutcome(s: State, o: OpId, s': State)
    requires o !in s.results
    requires DoSpinPending(s, o, s') || DoSetFull(s, o, s') || DoTryLock(s, o, s') || DoAbandon(s, o, s') ||
        DoBuild(s, o, s') || DoFinish(s, o, s')
    ensures Outcome(s, o, s')
  {
    hide Path;
  }

  lemma LateOutcome(s: State, o: OpId, s': State)
    requires o !in s.results && (DoRecheck(s, o, s') || DoFailed(s, o, s') || DoNote(s, o, s') || DoAwait(s, o, s') ||
        DoCompare(s, o, s'))
    ensures Outcome(s, o, s')
  {
    hide Path;
  }

  lemma OtherOutcome(s: State, o: OpId, s': State)
    requires o !in s.results && (DoFind(s, o, s') || DoErase(s, o, s') || exists op :: Begin(s, o, op, s'))
    ensures Outcome(s, o, s')
  {
    hide Path;
  }

  lemma StepOutcome(s: State, o: OpId, s': State)
    requires StepBy(s, o, s') && o !in s.results
    ensures Outcome(s, o, s')
  {
    hide Outcome, DoLook, DoIncr, DoCheckFull, DoUndo, DoSpinFull, DoSpinPending, DoSetFull, DoTryLock, DoAbandon,
        DoBuild, DoFinish,
      DoRecheck, DoFailed, DoNote, DoAwait, DoCompare, DoFind, DoErase, Begin;
    if DoRecheck(s, o, s') || DoFailed(s, o, s') || DoNote(s, o, s') || DoAwait(s, o, s') || DoCompare(s, o, s') {
        LateOutcome(s, o, s'); }
    else if DoLook(s, o, s') || DoIncr(s, o, s') || DoCheckFull(s, o, s') || DoUndo(s, o, s') ||
        DoSpinFull(s, o, s') { EarlyOutcome(s, o, s'); }
    else if InsertStep(s, o, s') { MiddleOutcome(s, o, s'); }
    else { OtherOutcome(s, o, s'); }
  }

  lemma {:induction false} FullForGrows(run: seq<State>, i: nat, j: nat, k: Key)
    requires IsRun(run) && i <= j < |run| && k in run[i].fullFor
    ensures k in run[j].fullFor
  {
    hide StepBy;
    if i < j {
      FullForGrows(run, i, j - 1, k);
      assert Step(run[j - 1], run[j]);
      var o :| StepBy(run[j - 1], o, run[j]);
      StepFootprint(run[j - 1], o, run[j]);
    }
  }

  /** What a find that still has its key ahead looks like, or that it has found it. */
  ghost predicate OnTrack(s: State, o: OpId, k: Key, n: nat, c: nat) {
    || (o in s.ops && s.ops[o].Find? && s.ops[o].k == k && s.ops[o].n <= n && o !in s.results)
    || (o in s.results && s.results[o] == Found(c) && o !in s.ops)
  }

  lemma TrackStep(s: State, p: OpId, s': State, o: OpId, k: Key, n: nat, c: nat)
    requires Inv(s) && StepBy(s, p, s') && c < |s.cells| && s.cells[c] == Holds(k) && Placed(s.a, s.cells, c, n) &&
        OnTrack(s, o, k, n, c)
    ensures OnTrack(s', o, k, n, c)
  {
    StepFootprint(s, p, s');
    if p == o && o in s.ops {
      OpAt(s, o);
      assert s.ops[o].n < n ==> PassedAt(s.a, s.cells, k, s.ops[o].n);
      hide Inv, Passed, Path, PassedAt;
    } else if p == o {
      hide Path;
    }
  }

  /** A find during which its key stays live in one cell returns that cell. */
  lemma {:induction false} FindTracks(run: seq<State>, i: nat, j: nat, o: OpId, k: Key, c: nat, n: nat)
    requires IsRun(run) && i <= j < |run| && o in run[i].ops && run[i].ops[o] == Find(k, 0) && o !in run[i].results
    requires c < |run[i].cells| && run[i].a.Valid() && run[i].cells[c] == Holds(k) &&
        Placed(run[i].a, run[i].cells, c, n)
    requires forall t :: i <= t <= j ==> c < |run[t].cells| && run[t].cells[c] == Holds(k)
    ensures OnTrack(run[j], o, k, n, c) && run[j].a == run[i].a && Placed(run[j].a, run[j].cells, c, n)
  {
    hide StepBy, Start;
    if i < j {
      FindTracks(run, i, j - 1, o, k, c, n);
      RunInv(run, j - 1);
      assert Step(run[j - 1], run[j]);
      var p :| StepBy(run[j - 1], p, run[j]);
      StepInv(run[j - 1], p, run[j]);
      StepFootprint(run[j - 1], p, run[j]);
      hide Inv;
      TrackStep(run[j - 1], p, run[j], o, k, n, c);
      PassedStable(run[j].a, run[j - 1].cells, run[j].cells, k, n);
    }
  }

  lemma FindReturnsLive(run: seq<State>, i: nat, j: nat, o: OpId, k: Key, c: nat)
    requires IsRun(run) && i <= j < |run| && o in run[i].ops && run[i].ops[o] == Find(k, 0) && o !in run[i].results
    requires forall t :: i <= t <= j ==> c < |run[t].cells| && run[t].cells[c] == Holds(k)
    ensures o in run[j].results ==> run[j].results[o] == Found(c)
  {
    RunInv(run, i);
    assert c < |run[i].cells| && run[i].cells[c] == Holds(k);
    assert Reachable(run[i].a, run[i].cells, c);
    var n: nat :| Placed(run[i].a, run[i].cells, c, n);
    FindTracks(run, i, j, o, k, c, n);
  }

  // ---------------------------------------------------------------- what an erase does

  /** A step of an erase stays an erase of its key or returns Removed. */
  lemma EraseStep(s: State, o: OpId, s': State)
    requires StepBy(s, o, s') && o in s.ops && s.ops[o].Erase? && o !in s.results
    ensures if o in s'.ops then s'.ops[o].Erase? && s'.ops[o].k == s.ops[o].k && o !in s'.results
            else o in s'.results && s'.results[o].Removed?
  {
    hide Path;
  }

  /** An erase probes on as an erase, however far, until it returns Removed. */
  lemma {:induction false} EraseStaysErase(run: seq<State>, i: nat, j: nat, o: OpId)
    requires IsRun(run) && i <= j < |run| && o in run[i].ops && run[i].ops[o].Erase? && o !in run[i].results
    ensures if o in run[j].ops then run[j].ops[o].Erase? && run[j].ops[o].k == run[i].ops[o].k && o !in run[j].results
            else o in run[j].results && run[j].results[o].Removed?
  {
    hide StepBy, Start;
    if i < j {
      EraseStaysErase(run, i, j - 1, o);
      var s, s' := run[j - 1], run[j];
      assert Step(s, s');
      var p :| StepBy(s, p, s');
      if p == o && o in s.ops { EraseStep(s, o, s'); }
      else if p == o { NoMoreSteps(s, o, s'); }
      else { StepFootprint(s, p, s'); }
    }
  }

  /** A call that has returned does nothing any more. */
  lemma NoMoreSteps(s: State, o: OpId, s': State)
    requires StepBy(s, o, s') && o !in s.ops
    ensures o !in s.results
  {}

  /** A key leaves a cell exactly by the step of an erase of that key which returns success. */
  lemma RemovedMeansErased(s: State, o: OpId, s': State)
    requires Inv(s) && StepBy(s, o, s') && o !in s.results
    ensures o in s'.results && s'.results[o] == Removed(true) <==>
              exists c :: 0 <= c < |s.cells| && 0 <= c < |s'.cells| && s.cells[c].Holds? && s'.cells[c] == Erased
    ensures forall c :: 0 <= c < |s.cells| && c < |s'.cells| && s.cells[c].Holds? && s'.cells[c] != s.cells[c] ==>
              s'.cells[c] == Erased && o in s.ops && s.ops[o].Erase? && s.ops[o].k == s.cells[c].key
  {
    hide Path, CellsOK, LocksOK, CloseOK, FullOK, OpsOK, DoLook, DoIncr, DoCheckFull, DoUndo, DoSpinFull, DoSpinPending,
      DoSetFull, DoTryLock, DoAbandon, DoBuild, DoFinish, DoRecheck, DoFailed, DoNote, DoAwait, DoCompare;
    if InsertStep(s, o, s') {
      InsertKeepsKeys(s, o, s');
    } else if DoErase(s, o, s') {
      if s.ops[o].found && At(s, s.ops[o]) == Holds(s.ops[o].k) {
        var c := Spot(s, s.ops[o]);
        assert s.cells[c].Holds? && s'.cells[c] == Erased;
      }
    }
  }

  lemma InsertKeepsKeys(s: State, o: OpId, s': State)
    requires Inv(s) && InsertStep(s, o, s') && o !in s.results
    ensures |s'.cells| == |s.cells| && forall c :: 0 <= c < |s.cells| && s.cells[c].Holds? ==> s'.cells[c] == s.cells[c]
    ensures o in s'.results ==> !s'.results[o].Removed?
  {
    hide Inv, DoLook, DoIncr, DoCheckFull, DoUndo, DoSpinFull, DoSpinPending, DoSetFull, DoTryLock, DoAbandon, DoBuild,
      DoFinish, DoRecheck, DoFailed, DoNote, DoAwait, DoCompare;
    if DoTryLock(s, o, s') || DoBuild(s, o, s') {
      OwnCellOnly(s, o, s');
    } else {
      CellsAlone(s, o, s');
    }
  }

  lemma OwnCellOnly(s: State, o: OpId, s': State)
    requires Inv(s) && (DoTryLock(s, o, s') || DoBuild(s, o, s'))
    ensures |s'.cells| == |s.cells| && forall c :: 0 <= c < |s.cells| && s.cells[c].Holds? ==> s'.cells[c] == s.cells[c]
    ensures s'.results == s.results
  {
    hide Path, CellsOK, LocksOK, CloseOK, FullOK;
    OpAt(s, o);
    PathInside(s.a, s.ops[o].k, s.ops[o].n);
  }

  lemma CellsAlone(s: State, o: OpId, s': State)
    requires InsertStep(s, o, s') && !DoTryLock(s, o, s') && !DoBuild(s, o, s') && o !in s.results
    ensures s'.cells == s.cells && (o in s'.results ==> !s'.results[o].Removed?)
  {
    hide Path, At, Spot;
  }

  /** An erase that has not yet come past the cell of its key. */
  ghost predicate ErasesAhead(s: State, o: OpId, k: Key, n: nat) {
    && o in s.ops && s.ops[o].Erase? && s.ops[o].k == k && o !in s.results
    && s.ops[o].n <= n && (s.ops[o].found ==> s.ops[o].n == n)
  }

  lemma EraseTrackStep(s: State, p: OpId, s': State, o: OpId, k: Key, n: nat, c: nat)
    requires Inv(s) && StepBy(s, p, s') && c < |s.cells| && s.cells[c] == Holds(k) && Placed(s.a, s.cells, c, n)
    requires ErasesAhead(s, o, k, n)
    ensures o in s'.results ==> p == o && s'.results[o] == Removed(true) && c < |s'.cells| && s'.cells[c] == Erased
    ensures o !in s'.results ==> ErasesAhead(s', o, k, n)
  {
    StepFootprint(s, p, s');
    if p == o {
      assert s.ops[o].n < n ==> PassedAt(s.a, s.cells, k, s.ops[o].n);
      hide Inv, Passed, Path, PassedAt;
    }
  }

  lemma {:induction false} EraseTracks(run: seq<State>, i: nat, j: nat, o: OpId, k: Key, c: nat, n: nat)
    requires IsRun(run) && i <= j < |run| && o in run[i].ops && run[i].ops[o] == Erase(k, 0, false) &&
        o !in run[i].results
    requires c < |run[i].cells| && run[i].a.Valid() && run[i].cells[c] == Holds(k) &&
        Placed(run[i].a, run[i].cells, c, n)
    requires forall t :: i <= t <= j ==> c < |run[t].cells| && run[t].cells[c] == Holds(k)
    ensures ErasesAhead(run[j], o, k, n) && run[j].a == run[i].a && Placed(run[j].a, run[j].cells, c, n)
  {
    hide StepBy, Start;
    if i < j {
      EraseTracks(run, i, j - 1, o, k, c, n);
      RunInv(run, j - 1);
      assert Step(run[j - 1], run[j]);
      var p :| StepBy(run[j - 1], p, run[j]);
      StepInv(run[j - 1], p, run[j]);
      StepFootprint(run[j - 1], p, run[j]);
      hide Inv;
      EraseTrackStep(run[j - 1], p, run[j], o, k, n, c);
      PassedStable(run[j].a, run[j - 1].cells, run[j].cells, k, n);
    }
  }

  /** An erase during which its key is live in one cell until it returns erases that cell and reports success. */
  lemma EraseRemovesLive(run: seq<State>, i: nat, j: nat, o: OpId, k: Key, c: nat)
    requires IsRun(run) && i < j < |run| && o in run[i].ops && run[i].ops[o] == Erase(k, 0, false) &&
        o !in run[i].results
    requires forall t :: i <= t < j ==> c < |run[t].cells| && run[t].cells[c] == Holds(k)
    ensures o in run[j].results ==>
        run[j].results[o] == Removed(true) && c < |run[j].cells| && run[j].cells[c] == Erased
  {
    hide StepBy, Start;
    RunInv(run, i);
    assert c < |run[i].cells| && run[i].cells[c] == Holds(k);
    assert Reachable(run[i].a, run[i].cells, c);
    var n: nat :| Placed(run[i].a, run[i].cells, c, n);
    EraseTracks(run, i, j - 1, o, k, c, n);
    RunInv(run, j - 1);
    assert Step(run[j - 1], run[j]);
    var p :| StepBy(run[j - 1], p, run[j]);
    EraseTrackStep(run[j - 1], p, run[j], o, k, n, c);
  }
}
