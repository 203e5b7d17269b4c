/** Every step keeps the chains of an AtomicUnorderedInsertMap in order, and finds agree for ever. */
module UnorderedProofs {
  import opened Options
  import opened UnorderedMap

  // ---------------------------------------------------------------- chains only grow

  /** Chains are extended at the front; linked elements keep their key. */
  ghost predicate Grows(s: State, s': State) {
    && s'.hash == s.hash && |s'.slots| == |s.slots| && |s'.chains| == |s.chains|
    && (forall b :: 0 <= b < |s.chains| ==> s.chains[b] <= s'.chains[b])
    && (forall b, n :: Position(s, b, n) ==> KeyAt(s', b, n) == KeyAt(s, b, n))
  }

  lemma StandingStable(a: seq<nat>, b: seq<nat>, n: nat)
    requires a <= b && n <= |a|
    ensures Standing(b, n) == Standing(a, n)
  {}

  lemma WithoutStable(s: State, s': State, b: nat, from: nat, to: nat, key: Key)
    requires Without(s, b, from, to, key) && Grows(s, s')
    ensures Without(s', b, from, to, key)
  {
    assert s.chains[b] <= s'.chains[b];
    forall n | from <= n < to ensures KeyAt(s', b, n) != key { assert Position(s, b, n); }
  }

  lemma WalkStable(s: State, s': State, op: Op)
    requires WalkOK(s, op) && Grows(s, s')
    ensures WalkOK(s', op)
  {
    assert s.chains[op.slot] <= s'.chains[op.slot];
    StandingStable(s.chains[op.slot], s'.chains[op.slot], op.prevLen);
    if op.pc.Walk? {
      StandingStable(s.chains[op.slot], s'.chains[op.slot], op.curLen);
      WithoutStable(s, s', op.slot, op.curLen, op.prevLen, op.key);
    }
    if op.pc.AllocLoad? || op.pc.AllocCas? || op.pc.Construct? || op.pc.SetNext? || op.pc.Cas? {
      WithoutStable(s, s', op.slot, 0, op.prevLen, op.key);
    }
  }

  lemma FoundStable(s: State, s': State, key: Key, b: nat, idx: nat)
    requires FoundOK(s, key, b, idx) && Grows(s, s')
    ensures FoundOK(s', key, b, idx)
  {
    var n :| Position(s, b, n) && s.chains[b][n] == idx && KeyAt(s, b, n) == key;
    assert s.chains[b] <= s'.chains[b];
    assert Position(s', b, n);
  }

  /** Another call's room is as it was. */
  ghost predicate RoomSame(s: State, s': State, i: nat) {
    && i < |s.slots| && i < |s'.slots| && s'.slots[i].key == s.slots[i].key && s'.slots[i].next == s.slots[i].next
    && BucketState(s'.slots[i].word) == BucketState(s.slots[i].word) && (InChain(s', i) <==> InChain(s, i))
  }

  lemma OpStable(s: State, s': State, op: Op)
    requires OpOK(s, op) && Grows(s, s') && (op.room.Some? ==> RoomSame(s, s', op.room.value))
    ensures OpOK(s', op)
  {
    hide WalkOK, FoundOK, InChain, Reduce;
    if !op.pc.LoadHead? && !op.pc.Promote? && !op.pc.Abandon? { WalkStable(s, s', op); }
    if op.pc.Abandon? && op.pc.existing != 0 { FoundStable(s, s', op.key, op.slot, op.pc.existing); }
    if op.pc.Promote? && op.room.Some? { FoundStable(s, s', op.key, op.slot, op.room.value); }
  }

  lemma OpsKept(s: State, s': State, o: OpId)
    requires OpsOK(s) && Grows(s, s')
    requires forall p :: p in s'.ops && p != o ==>
        p in s.ops && s'.ops[p] == s.ops[p] && (s.ops[p].room.Some? ==> RoomSame(s, s', s.ops[p].room.value))
    requires o in s'.ops ==> OpOK(s', s'.ops[o])
    requires o in s'.ops && s'.ops[o].room.Some? ==>
        forall p :: p in s'.ops && p != o ==> s'.ops[p].room != s'.ops[o].room
    ensures OpsOK(s')
  {
    hide OpOK, RoomSame;
    forall p | p in s'.ops ensures OpOK(s', s'.ops[p]) {
      if p != o { OpStable(s, s', s.ops[p]); }
    }
  }

  lemma OpAt(s: State, o: OpId)
    requires Inv(s) && o in s.ops
    ensures OpOK(s, s.ops[o]) && |s.chains| == |s.slots|
  {}

  lemma Alone(s: State, o: OpId, p: OpId)
    requires Inv(s) && o in s.ops && p in s.ops && p != o && s.ops[o].room.Some?
    ensures s.ops[p].room != s.ops[o].room
  {}

  // ---------------------------------------------------------------- steps that only read

  lemma SameGrows(s: State, s': State)
    requires s'.hash == s.hash && s'.slots == s.slots && s'.chains == s.chains
    ensures Grows(s, s') && forall i: nat :: i < |s.slots| ==> RoomSame(s, s', i)
  {}

  lemma SameShape(s: State, s': State)
    requires ChainsOK(s) && ApartOK(s) && s'.hash == s.hash && s'.slots == s.slots && s'.chains == s.chains
    ensures ChainsOK(s') && ApartOK(s')
  {
    forall b, n | 0 <= b < |s'.chains| && 0 <= n < |s'.chains[b]| ensures ElementOK(s', b, n) {
        assert ElementOK(s, b, n); }
    assert forall b, n :: Position(s', b, n) <==> Position(s, b, n);
    assert forall b, n :: KeyAt(s', b, n) == KeyAt(s, b, n);
  }

  lemma ReadStep(s: State, o: OpId, s': State)
    requires Inv(s) && s' == s.(ops := s'.ops, results := s'.results)
    requires s'.ops == s.ops - {o} || (o in s'.ops && s'.ops == s.ops[o := s'.ops[o]])
    requires o in s'.ops ==>
        OpOK(s, s'.ops[o]) && (o in s.ops ==> s'.ops[o].room == s.ops[o].room) && (o !in s.ops ==> s'.ops[o].room.None?)
    ensures Inv(s') && Grows(s, s')
  {
    hide OpOK;
    SameGrows(s, s');
    SameShape(s, s');
    forall p | p in s'.ops && p != o ensures s.ops[p].room.Some? ==> RoomSame(s, s', s.ops[p].room.value) {
        RoomInside(s, p); }
    if o in s'.ops { RoomOf(s, s'.ops[o]); OpStable(s, s', s'.ops[o]); }
    hide Grows, RoomSame, ChainsOK, ApartOK;
    OpsKept(s, s', o);
  }

  lemma RoomOf(s: State, op: Op)
    requires OpOK(s, op)
    ensures op.room.Some? ==> op.room.value < |s.slots|
  {
    hide WalkOK, InChain, FoundOK;
  }

  lemma RoomInside(s: State, p: OpId)
    requires Inv(s) && p in s.ops
    ensures s.ops[p].room.Some? ==>
        0 < s.ops[p].room.value < |s.slots| && BucketState(s.slots[s.ops[p].room.value].word) == CONSTRUCTING
    ensures s.ops[p].room.Some? && !s.ops[p].pc.Promote? ==> !InChain(s, s.ops[p].room.value)
  {
    hide ChainsOK, ApartOK, InChain;
    assert OpOK(s, s.ops[p]);
  }

  lemma BeginInv(s: State, o: OpId, lookup: bool, key: Key, s': State)
    requires Inv(s) && Begin(s, o, lookup, key, s')
    ensures Inv(s') && Grows(s, s')
  {
    ReduceInside(s.hash(key), |s.slots|);
    if lookup { BeginWalk(s, s'.ops[o]); }
    hide Inv, WalkOK, Reduce;
    ReadStep(s, o, s');
  }

  lemma BeginWalk(s: State, op: Op)
    requires op.slot < |s.chains| && op.prev == 0 && op.prevLen == 0 && op.pc.WalkLoad?
    ensures WalkOK(s, op)
  {}

  lemma LoadInv(s: State, o: OpId, s': State)
    requires Inv(s) && (DoLoadHead(s, o, s') || DoWalkLoad(s, o, s'))
    ensures Inv(s') && Grows(s, s')
  {
    hide Inv, ChainsOK, OpOK;
    OpAt(s, o);
    Shape(s);
    LoadLocal(s, s.ops[o], s'.ops[o]);
    ReadStep(s, o, s');
  }

  lemma LoadLocal(s: State, op: Op, op': Op)
    requires ChainsOK(s) && OpOK(s, op) && op.slot < |s.chains|
    requires || (op.pc.LoadHead? && op' == op.(pc := WalkLoad, prev := s.slots[op.slot].word,
        prevLen := |s.chains[op.slot]|))
             || (op.pc.WalkLoad? && op' == op.(pc := Walk, cur := Head(s.slots[op.slot].word),
                 curLen := |s.chains[op.slot]|))
    ensures OpOK(s, op')
  {
    hide InChain, Reduce;
    assert Head(s.slots[op.slot].word) == Standing(s.chains[op.slot], |s.chains[op.slot]|);
    hide ChainsOK;
  }

  /** One step of a search: what has been passed does not have the key. */
  lemma WalkInv(s: State, o: OpId, s': State)
    requires Inv(s) && DoWalk(s, o, s')
    ensures Inv(s') && Grows(s, s')
  {
    hide Inv, ChainsOK, OpOK, FoundOK, WalkOK;
    OpAt(s, o);
    Shape(s);
    var op := s.ops[o];
    OpWalks(s, op);
    WalkPlace(s, op);
    if o in s'.ops {
      var op' := s'.ops[o];
      if op.cur == 0 {
        WalkedAll(s, op, op');
      } else if s.slots[op.cur].key == op.key {
        WalkFound(s, op);
      } else {
        WalkNext(s, op, op');
      }
      WalkGoesOn(s, op, op');
    }
    ReadStep(s, o, s');
  }

  lemma Shape(s: State)
    requires Inv(s)
    ensures ChainsOK(s) && ApartOK(s)
  {}

  lemma OpWalks(s: State, op: Op)
    requires OpOK(s, op) && op.pc.Walk?
    ensures WalkOK(s, op) && op.slot < |s.slots|
  {}

  lemma WalkGoesOn(s: State, op: Op, op': Op)
    requires OpOK(s, op) && op.pc.Walk? && op' == op.(pc := op'.pc, cur := op'.cur, curLen := op'.curLen)
    requires (op'.pc.Walk? && WalkOK(s, op')) || (op'.pc.SetNext? && op.room.Some? && WalkOK(s, op') && !op.lookup)
             || (op'.pc.AllocLoad? && op.room.None? && WalkOK(s, op') && !op.lookup)
             || (op'.pc.Abandon? && op.room.Some? && op'.pc.existing != 0 &&
                 FoundOK(s, op.key, op.slot, op'.pc.existing))
    ensures OpOK(s, op')
  {
    hide WalkOK, FoundOK, InChain, Reduce;
  }

  lemma WalkFound(s: State, op: Op)
    requires ChainsOK(s) && op.pc.Walk? && WalkOK(s, op) && op.cur != 0 && op.cur < |s.slots| &&
        s.slots[op.cur].key == op.key
    ensures FoundOK(s, op.key, op.slot, op.cur)
  {
    WalkPlace(s, op);
    assert Position(s, op.slot, op.curLen - 1) && KeyAt(s, op.slot, op.curLen - 1) == op.key;
  }

  lemma WalkNext(s: State, op: Op, op': Op)
    requires ChainsOK(s) && op.pc.Walk? && WalkOK(s, op) && op.cur != 0 && op.cur < |s.slots| &&
        s.slots[op.cur].key != op.key
    requires op' == op.(cur := s.slots[op.cur].next, curLen := op'.curLen) && op'.curLen == op.curLen - 1
    ensures WalkOK(s, op')
  {
    WalkPlace(s, op);
  }

  /** A walk that is not at the end stands on the element its count says. */
  lemma WalkPlace(s: State, op: Op)
    requires ChainsOK(s) && op.pc.Walk? && WalkOK(s, op)
    ensures op.cur == 0 <==> op.curLen == 0
    ensures op.cur != 0 ==> op.cur == s.chains[op.slot][op.curLen - 1] && op.cur < |s.slots|
    ensures op.cur != 0 ==> s.slots[op.cur].next == Standing(s.chains[op.slot], op.curLen - 1)
    ensures op.cur != 0 ==> KeyAt(s, op.slot, op.curLen - 1) == s.slots[op.cur].key
  {
    if op.curLen > 0 { assert ElementOK(s, op.slot, op.curLen - 1); }
  }

  lemma WalkedAll(s: State, op: Op, op': Op)
    requires op.pc.Walk? && WalkOK(s, op) && op.curLen == 0 && op' == op.(pc := op'.pc) &&
        (op'.pc.SetNext? || op'.pc.AllocLoad?)
    ensures WalkOK(s, op')
  {}

  lemma AllocLoadInv(s: State, o: OpId, s': State)
    requires Inv(s) && DoAllocLoad(s, o, s')
    ensures Inv(s') && Grows(s, s')
  {
    hide Inv, InChain, Reduce, WalkOK;
    OpAt(s, o);
    if s' == s {
      SameGrows(s, s');
    } else {
      if o in s'.ops { AllocWalk(s, s.ops[o], s'.ops[o]); }
      ReadStep(s, o, s');
    }
  }

  /** WalkOK says the same of all stages of allocation and building. */
  lemma AllocWalk(s: State, op: Op, op': Op)
    requires WalkOK(s, op) && op'.slot == op.slot && op'.prev == op.prev && op'.prevLen == op.prevLen &&
        op'.key == op.key
    requires op.pc.AllocLoad? || op.pc.AllocCas? || op.pc.Construct? || op.pc.SetNext?
    requires !op'.pc.Walk?
    ensures WalkOK(s, op')
  {}

  // ---------------------------------------------------------------- steps that write a slot

  /** A slot outside every chain changes; heads stay what they are. */
  ghost predicate OffChain(s: State, i: nat, x: Slot, s': State) {
    && i < |s.slots| && s'.hash == s.hash && s'.slots == s.slots[i := x] && s'.chains == s.chains
    && Head(x.word) == Head(s.slots[i].word) && !InChain(s, i)
  }

  lemma NotAt(s: State, i: nat, b: int, n: int)
    requires !InChain(s, i) && Position(s, b, n)
    ensures s.chains[b][n] != i
  {
    assert s.chains[b][n] in s.chains[b];
  }

  lemma OffChainShape(s: State, i: nat, x: Slot, s': State)
    requires ChainsOK(s) && ApartOK(s) && OffChain(s, i, x, s') && BucketState(x.word) <= 2 &&
        (i == 0 ==> BucketState(x.word) == CONSTRUCTING)
    ensures ChainsOK(s') && ApartOK(s') && Grows(s, s')
  {
    hide InChain;
    forall b, n | Position(s, b, n) ensures ElementOK(s', b, n) && KeyAt(s', b, n) == KeyAt(s, b, n) {
      assert ElementOK(s, b, n);
      NotAt(s, i, b, n);
    }
    assert forall b, n :: Position(s', b, n) <==> Position(s, b, n);
  }

  lemma OffChainRooms(s: State, i: nat, x: Slot, s': State, j: nat)
    requires OffChain(s, i, x, s') && j < |s.slots| && j != i
    ensures RoomSame(s, s', j)
  {}

  /** A call writes into its own room, or takes or gives back a room, outside every chain. */
  lemma RoomStep(s: State, o: OpId, i: nat, x: Slot, s': State)
    requires Inv(s) && o in s.ops && OffChain(s, i, x, s') && BucketState(x.word) <= 2 &&
        (i == 0 ==> BucketState(x.word) == CONSTRUCTING)
    requires s'.ops == s.ops - {o} || (o in s'.ops && s'.ops == s.ops[o := s'.ops[o]])
    requires forall p :: p in s.ops && p != o ==> s.ops[p].room != Some(i)
    requires o in s'.ops ==> OpOK(s', s'.ops[o]) && s'.ops[o].room == Some(i)
    ensures Inv(s') && Grows(s, s')
  {
    hide OpOK, ChainsOK, ApartOK, Grows, RoomSame, OffChain;
    OffChainShape(s, i, x, s');
    forall p | p in s'.ops && p != o ensures s.ops[p].room.Some? ==> RoomSame(s, s', s.ops[p].room.value) {
      RoomInside(s, p);
      if s.ops[p].room.Some? { OffChainRooms(s, i, x, s', s.ops[p].room.value); }
    }
    OpsKept(s, s', o);
  }

  lemma EmptyIsFree(s: State, c: nat)
    requires Inv(s) && c < |s.slots| && BucketState(s.slots[c].word) == EMPTY
    ensures c > 0 && !InChain(s, c) && forall p :: p in s.ops ==> s.ops[p].room != Some(c)
  {
    forall b | 0 <= b < |s.chains| ensures c !in s.chains[b] {
      forall n | 0 <= n < |s.chains[b]| ensures s.chains[b][n] != c { assert ElementOK(s, b, n); }
    }
    forall p | p in s.ops ensures s.ops[p].room != Some(c) { RoomInside(s, p); }
  }

  lemma AllocCasInv(s: State, o: OpId, s': State)
    requires Inv(s) && DoAllocCas(s, o, s')
    ensures Inv(s') && Grows(s, s')
  {
    hide Inv, OpOK, InChain, Grows;
    OpAt(s, o);
    var op := s.ops[o];
    var c := op.pc.c;
    AllocSeen(s, op);
    if s.slots[c].word == op.pc.seen {
      EmptyIsFree(s, c);
      var x := s.slots[c].(word := op.pc.seen + CONSTRUCTING);
      assert OffChain(s, c, x, s');
      Shape(s);
      hide ChainsOK, ApartOK;
      OffChainShape(s, c, x, s');
      OffChainMembers(s, c, x, s');
      AllocLocal(s, s', op, c);
      RoomStep(s, o, c, x, s');
    } else {
      AllocBack(s, op);
      ReadStep(s, o, s');
    }
  }

  lemma OffChainMembers(s: State, i: nat, x: Slot, s': State)
    requires OffChain(s, i, x, s')
    ensures forall j: nat :: InChain(s', j) <==> InChain(s, j)
  {}

  lemma AllocSeen(s: State, op: Op)
    requires OpOK(s, op) && op.pc.AllocCas?
    ensures op.pc.c < |s.slots| && BucketState(op.pc.seen) == EMPTY && op.room.None?
  {}

  lemma AllocBack(s: State, op: Op)
    requires OpOK(s, op) && op.pc.AllocCas?
    ensures OpOK(s, op.(pc := AllocLoad))
  {
    hide WalkOK, InChain, Reduce;
    AllocWalk(s, op, op.(pc := AllocLoad));
  }

  lemma AllocLocal(s: State, s': State, op: Op, c: nat)
    requires OpOK(s, op) && op.pc.AllocCas? && Grows(s, s') && c < |s'.slots| && 0 < c &&
        BucketState(s'.slots[c].word) == CONSTRUCTING && !InChain(s', c)
    ensures OpOK(s', op.(pc := Construct, room := Some(c)))
  {
    hide WalkOK, InChain, Reduce;
    WalkStable(s, s', op);
    AllocWalk(s', op, op.(pc := Construct, room := Some(c)));
  }

  /** The call's own room, outside every chain unless it is being promoted. */
  lemma MyRoom(s: State, o: OpId)
    requires Inv(s) && o in s.ops && s.ops[o].room.Some?
    ensures var i := s.ops[o].room.value;
      && 0 < i < |s.slots| && BucketState(s.slots[i].word) == CONSTRUCTING && (s.ops[o].pc.Promote? <==> InChain(s, i))
      && forall p :: p in s.ops && p != o ==> s.ops[p].room != Some(i)
  {
    OpAt(s, o);
    hide ChainsOK, ApartOK, InChain, WalkOK;
  }

  lemma BuildInv(s: State, o: OpId, s': State)
    requires Inv(s) && (DoConstruct(s, o, s') || DoSetNext(s, o, s'))
    ensures Inv(s') && Grows(s, s')
  {
    hide Inv, OpOK, InChain, Grows, OffChain;
    OpAt(s, o);
    MyRoom(s, o);
    var op, i := s.ops[o], s.ops[o].room.value;
    if s'.ops[o].pc.Abandon? {
      GiveUpLocal(s, op);
      ReadStep(s, o, s');
    } else {
      var x := s'.slots[i];
      OffChainWrite(s, i, x, s');
      Shape(s);
      hide ChainsOK, ApartOK;
      OffChainShape(s, i, x, s');
      OffChainMembers(s, i, x, s');
      BuildLocal(s, s', op, s'.ops[o], i);
      RoomStep(s, o, i, x, s');
    }
  }

  lemma OffChainWrite(s: State, i: nat, x: Slot, s': State)
    requires i < |s.slots| && s'.hash == s.hash && s'.slots == s.slots[i := x] && s'.chains == s.chains &&
        !InChain(s, i)
    requires Head(x.word) == Head(s.slots[i].word)
    ensures OffChain(s, i, x, s')
  {}

  lemma GiveUpLocal(s: State, op: Op)
    requires OpOK(s, op) && op.pc.Construct?
    ensures OpOK(s, op.(pc := Abandon(0)))
  {
    hide WalkOK, InChain, Reduce;
  }

  lemma BuildLocal(s: State, s': State, op: Op, op': Op, i: nat)
    requires OpOK(s, op) && (op.pc.Construct? || op.pc.SetNext?) && op.room == Some(i) && i < |s.slots| &&
        Grows(s, s') && !InChain(s', i)
    requires op' == op.(pc := op'.pc) && BucketState(s'.slots[i].word) == BucketState(s.slots[i].word)
    requires if op.pc.Construct? then op'.pc.SetNext? && s'.slots[i].key == op.key
             else op'.pc.Cas? && s'.slots[i].key == s.slots[i].key && s'.slots[i].next == Head(op.prev)
    ensures OpOK(s', op')
  {
    hide WalkOK, InChain, Reduce;
    WalkStable(s, s', op);
    AllocWalk(s', op, op');
  }

  lemma AbandonInv(s: State, o: OpId, s': State)
    requires Inv(s) && DoAbandon(s, o, s')
    ensures Inv(s') && Grows(s, s')
  {
    hide Inv, InChain, Grows, OffChain;
    MyRoom(s, o);
    var i := s.ops[o].room.value;
    OffChainWrite(s, i, s'.slots[i], s');
    RoomStep(s, o, i, s'.slots[i], s');
  }

  // ---------------------------------------------------------------- becoming LINKED

  lemma PromoteShape(s: State, s': State, i: nat)
    requires ChainsOK(s) && ApartOK(s) && 0 < i < |s.slots| && BucketState(s.slots[i].word) == CONSTRUCTING
    requires s'.hash == s.hash && s'.chains == s.chains &&
        s'.slots == s.slots[i := s.slots[i].(word := s.slots[i].word + 1)]
    ensures ChainsOK(s') && ApartOK(s') && Grows(s, s')
    ensures forall j: nat :: j < |s.slots| && j != i ==> RoomSame(s, s', j)
  {
    forall b, n | Position(s, b, n) ensures ElementOK(s', b, n) && KeyAt(s', b, n) == KeyAt(s, b, n) {
        assert ElementOK(s, b, n); }
    assert forall b, n :: Position(s', b, n) <==> Position(s, b, n);
  }

  lemma PromoteInv(s: State, o: OpId, s': State)
    requires Inv(s) && DoPromote(s, o, s')
    ensures Inv(s') && Grows(s, s')
  {
    hide Inv, OpOK, ChainsOK, ApartOK, Grows, RoomSame, InChain;
    MyRoom(s, o);
    Shape(s);
    var i := s.ops[o].room.value;
    PromoteShape(s, s', i);
    forall p | p in s'.ops && p != o ensures s.ops[p].room.Some? ==> RoomSame(s, s', s.ops[p].room.value) {
      RoomInside(s, p);
      Alone(s, o, p);
    }
    OpsParts(s);
    OpsKept(s, s', o);
    Assemble(s');
  }

  // ---------------------------------------------------------------- the compare-and-swap

  /** The word is what it was when the chain was last searched, so nothing was pushed since. */
  lemma NothingPushed(s: State, op: Op)
    requires ChainsOK(s) && ApartOK(s) && op.slot < |s.slots| && WalkOK(s, op) && s.slots[op.slot].word == op.prev
    ensures op.prevLen == |s.chains[op.slot]|
  {
    var b, len := op.slot, |s.chains[op.slot]|;
    if len > 0 { assert ElementOK(s, b, len - 1) && Position(s, b, len - 1); }
    if op.prevLen > 0 { assert Position(s, b, op.prevLen - 1); }
  }

  ghost predicate Pushed(s: State, b: nat, i: nat, after: nat, s': State) {
    && b < |s.slots| && b < |s.chains| && s'.hash == s.hash && s'.slots == s.slots[b := s.slots[b].(word := after)]
    && s'.chains == s.chains[b := s.chains[b] + [i]]
  }

  ghost predicate CanPush(s: State, b: nat, i: nat, after: nat) {
    && b < |s.slots| && b < |s.chains| && 0 < i < |s.slots| && !InChain(s, i) &&
        Reduce(s.hash(s.slots[i].key), |s.slots|) == b
    && s.slots[i].next == Head(s.slots[b].word) && BucketState(s.slots[i].word) == CONSTRUCTING
    && Without(s, b, 0, |s.chains[b]|, s.slots[i].key)
    && after == 4 * i + if b == i then LINKED else BucketState(s.slots[b].word)
  }

  lemma PushElements(s: State, b: nat, i: nat, after: nat, s': State, c: nat, n: nat)
    requires ChainsOK(s) && |s.chains| == |s.slots| && CanPush(s, b, i, after) && Pushed(s, b, i, after, s') &&
        Position(s', c, n)
    ensures ElementOK(s', c, n) && (Position(s, c, n) ==>
        KeyAt(s', c, n) == KeyAt(s, c, n) && s'.chains[c][n] == s.chains[c][n])
    ensures !Position(s, c, n) ==>
        c == b && n == |s.chains[b]| && s'.chains[c][n] == i && KeyAt(s', c, n) == s.slots[i].key
  {
    hide InChain, Reduce;
    if Position(s, c, n) { assert ElementOK(s, c, n); }
  }

  lemma PushShape(s: State, b: nat, i: nat, after: nat, s': State)
    requires ChainsOK(s) && ApartOK(s) && CanPush(s, b, i, after) && Pushed(s, b, i, after, s')
    ensures ChainsOK(s') && ApartOK(s') && Grows(s, s')
  {
    hide InChain, Reduce;
    forall c, n | Position(s', c, n)
      ensures ElementOK(s', c, n) && (Position(s, c, n) ==>
          KeyAt(s', c, n) == KeyAt(s, c, n) && s'.chains[c][n] == s.chains[c][n])
      ensures !Position(s, c, n) ==>
          c == b && n == |s.chains[b]| && s'.chains[c][n] == i && KeyAt(s', c, n) == s.slots[i].key
    {
      PushElements(s, b, i, after, s', c, n);
    }
    PushChains(s, b, i, after, s');
    PushApart(s, b, i, after, s');
    forall c, n | Position(s, c, n) ensures KeyAt(s', c, n) == KeyAt(s, c, n) { assert Position(s', c, n); }
    hide ElementOK;
  }

  lemma PushChains(s: State, b: nat, i: nat, after: nat, s': State)
    requires ChainsOK(s) && CanPush(s, b, i, after) && Pushed(s, b, i, after, s') &&
        forall c, n :: Position(s', c, n) ==> ElementOK(s', c, n)
    ensures ChainsOK(s')
  {
    hide InChain, Reduce, ElementOK, Without;
  }

  lemma PushApart(s: State, b: nat, i: nat, after: nat, s': State)
    requires ChainsOK(s) && ApartOK(s) && CanPush(s, b, i, after) && Pushed(s, b, i, after, s')
    requires forall c, n :: Position(s', c, n) && Position(s, c, n) ==>
        KeyAt(s', c, n) == KeyAt(s, c, n) && s'.chains[c][n] == s.chains[c][n]
    requires forall c, n :: Position(s', c, n) && !Position(s, c, n) ==>
               c == b && n == |s.chains[b]| && s'.chains[c][n] == i && KeyAt(s', c, n) == s.slots[i].key
    ensures ApartOK(s')
  {
    hide ChainsOK, InChain, Reduce, Pushed;
    forall c, n | Position(s, c, n) ensures s.chains[c][n] != i { NotAt(s, i, c, n); }
    forall n | Position(s, b, n) ensures KeyAt(s, b, n) != s.slots[i].key {}
    forall c, n, d, m | Position(s', c, n) && Position(s', d, m) &&
        s'.chains[c][n] == s'.chains[d][m] ensures c == d && n == m {
      if Position(s, c, n) && Position(s, d, m) { assert s.chains[c][n] == s.chains[d][m]; }
    }
    forall c, n, m | Position(s', c, n) && Position(s', c, m) && KeyAt(s', c, n) == KeyAt(s', c, m) ensures n == m {
      if Position(s, c, n) && Position(s, c, m) { assert KeyAt(s, c, n) == KeyAt(s, c, m); }
    }
  }

  lemma PushRooms(s: State, b: nat, i: nat, after: nat, s': State, j: nat)
    requires CanPush(s, b, i, after) && Pushed(s, b, i, after, s') && j < |s.slots| && j != i &&
        BucketState(s.slots[b].word) <= 2
    ensures RoomSame(s, s', j)
  {
    hide Reduce, Without;
    if InChain(s, j) {
      var c :| 0 <= c < |s.chains| && j in s.chains[c];
      assert j in s'.chains[c];
    }
    if InChain(s', j) {
      var c :| 0 <= c < |s'.chains| && j in s'.chains[c];
      assert j in s.chains[c];
    }
  }

  lemma PushMember(s: State, b: nat, i: nat, after: nat, s': State)
    requires Pushed(s, b, i, after, s')
    ensures InChain(s', i) && s'.chains[b][|s.chains[b]|] == i
  {
    assert s'.chains[b][|s.chains[b]|] == i;
  }

  lemma CasReady(s: State, o: OpId)
    requires Inv(s) && o in s.ops && s.ops[o].pc.Cas? && s.ops[o].room.Some? && s.ops[o].slot < |s.slots| &&
        s.slots[s.ops[o].slot].word == s.ops[o].prev
    ensures var op := s.ops[o]; var i := op.room.value;
      CanPush(s, op.slot, i, 4 * i + if op.slot == i then LINKED else BucketState(op.prev))
  {
    OpAt(s, o);
    MyRoom(s, o);
    Shape(s);
    NothingPushed(s, s.ops[o]);
    hide Inv, ChainsOK, ApartOK, InChain, Reduce;
  }

  lemma CasInv(s: State, o: OpId, s': State)
    requires Inv(s) && DoCas(s, o, s')
    ensures Inv(s') && Grows(s, s')
  {
    hide Inv, OpOK, InChain, Grows, CanPush, ChainsOK, ApartOK, RoomSame;
    var op, i := s.ops[o], s.ops[o].room.value;
    OpAt(s, o);
    Shape(s);
    if s.slots[op.slot].word == op.prev {
      var after := 4 * i + if op.slot == i then LINKED else BucketState(op.prev);
      CasReady(s, o);
      assert Pushed(s, op.slot, i, after, s');
      hide Pushed;
      PushShape(s, op.slot, i, after, s');
      PushMember(s, op.slot, i, after, s');
      CasOps(s, o, i, after, s');
    } else {
      CasRetry(s, op, s'.ops[o]);
      ReadStep(s, o, s');
    }
  }

  lemma CasRetry(s: State, op: Op, op': Op)
    requires ChainsOK(s) && OpOK(s, op) && op.pc.Cas? && op.slot < |s.chains|
    requires op' == op.(pc := WalkLoad, prev := s.slots[op.slot].word, prevLen := |s.chains[op.slot]|)
    ensures OpOK(s, op')
  {
    hide InChain, Reduce;
    assert Head(s.slots[op.slot].word) == Standing(s.chains[op.slot], |s.chains[op.slot]|);
    hide ChainsOK;
  }

  lemma StateBound(s: State, b: nat)
    requires ChainsOK(s) && b < |s.slots|
    ensures BucketState(s.slots[b].word) <= 2
  {}

  lemma CasOps(s: State, o: OpId, i: nat, after: nat, s': State)
    requires Inv(s) && o in s.ops && s.ops[o].pc.Cas? && s.ops[o].room == Some(i) && CanPush(s, s.ops[o].slot, i, after)
    requires Pushed(s, s.ops[o].slot, i, after, s') && ChainsOK(s') && ApartOK(s') && Grows(s, s') && InChain(s', i)
    requires if s.ops[o].slot == i then s'.ops == s.ops - {o} else s'.ops == s.ops[o := s.ops[o].(pc := Promote)]
    ensures Inv(s')
  {
    hide Inv, OpOK, InChain, Grows, CanPush, ChainsOK, ApartOK, RoomSame, FoundOK;
    var op := s.ops[o];
    OpAt(s, o);
    Shape(s);
    MyRoom(s, o);
    StateBound(s, op.slot);
    forall p | p in s'.ops && p != o ensures s.ops[p].room.Some? ==> RoomSame(s, s', s.ops[p].room.value) {
      RoomInside(s, p);
      Alone(s, o, p);
      if s.ops[p].room.Some? { PushRooms(s, op.slot, i, after, s', s.ops[p].room.value); }
    }
    if op.slot != i {
      RoomKey(s, op);
      PushedFound(s, op.slot, i, after, s');
      PromoteLocal(s, s', op, i);
    }
    OpsParts(s);
    OpsKept(s, s', o);
    Assemble(s');
  }

  lemma OpsParts(s: State)
    requires Inv(s)
    ensures OpsOK(s)
  {}

  lemma Assemble(s: State)
    requires ChainsOK(s) && ApartOK(s) && OpsOK(s)
    ensures Inv(s)
  {}

  lemma PromoteLocal(s: State, s': State, op: Op, i: nat)
    requires OpOK(s, op) && op.pc.Cas? && op.room == Some(i) && |s'.slots| == |s.slots| && s'.hash == s.hash &&
        InChain(s', i)
    requires i < |s.slots| && s'.slots[i] == s.slots[i] && FoundOK(s', op.key, op.slot, i)
    ensures OpOK(s', op.(pc := Promote))
  {
    hide WalkOK, InChain, Reduce, FoundOK;
  }

  lemma PushedFound(s: State, b: nat, i: nat, after: nat, s': State)
    requires Pushed(s, b, i, after, s') && i < |s.slots|
    ensures FoundOK(s', s.slots[i].key, b, i)
  {
    var n := |s.chains[b]|;
    assert Position(s', b, n) && s'.chains[b][n] == i && KeyAt(s', b, n) == s.slots[i].key;
  }

  // ---------------------------------------------------------------- every run

  lemma StepInv(s: State, o: OpId, s': State)
    requires Inv(s) && StepBy(s, o, s')
    ensures Inv(s') && Grows(s, s')
  {
    hide Inv, Grows, DoLoadHead, DoWalkLoad, DoWalk, DoAllocLoad, DoAllocCas, DoConstruct, DoSetNext, DoCas,
        DoPromote, DoAbandon, Begin;
    if DoLoadHead(s, o, s') || DoWalkLoad(s, o, s') { LoadInv(s, o, s'); }
    else if DoWalk(s, o, s') { WalkInv(s, o, s'); }
    else if DoAllocLoad(s, o, s') { AllocLoadInv(s, o, s'); }
    else if DoAllocCas(s, o, s') { AllocCasInv(s, o, s'); }
    else if DoConstruct(s, o, s') || DoSetNext(s, o, s') { BuildInv(s, o, s'); }
    else if DoCas(s, o, s') { CasInv(s, o, s'); }
    else if DoPromote(s, o, s') { PromoteInv(s, o, s'); }
    else if DoAbandon(s, o, s') { AbandonInv(s, o, s'); }
    else { var lookup, key :| Begin(s, o, lookup, key, s'); BeginInv(s, o, lookup, key, s'); }
  }

  lemma StartInv(s: State)
    requires Start(s)
    ensures Inv(s)
  {}

  lemma {:induction false} RunInv(run: seq<State>, i: nat)
    requires IsRun(run) && i < |run|
    ensures Inv(run[i])
  {
    hide Inv, Start, StepBy;
    if i == 0 {
      StartInv(run[0]);
    } else {
      RunInv(run, i - 1);
      assert Step(run[i - 1], run[i]);
      var o: nat :| StepBy(run[i - 1], o, run[i]);
      StepInv(run[i - 1], o, run[i]);
    }
  }

  // ---------------------------------------------------------------- what a chain is

  /** The element reached from the head of chain b over n links, or nil. */
  function Follow(s: State, b: nat, n: nat): nat
    requires b < |s.slots|
  {
    if n == 0 then Head(s.slots[b].word)
    else
      var p := Follow(s, b, n - 1);
      if 0 < p < |s.slots| then s.slots[p].next else 0
  }

  lemma {:induction false} FollowIs(s: State, b: nat, n: nat)
    requires Inv(s) && b < |s.slots|
    ensures |s.chains| == |s.slots| && Follow(s, b, n) == Standing(s.chains[b], if n <= |s.chains[b]| then
        |s.chains[b]| - n else 0)
  {
    assert ChainsOK(s);
    hide Inv, ApartOK, OpsOK;
    if n > 0 {
      FollowIs(s, b, n - 1);
      var len := |s.chains[b]|;
      if n - 1 < len { assert ElementOK(s, b, len - n); }
    }
  }

  /** Chain b has len elements and then ends. */
  ghost predicate EndsAfter(s: State, b: nat, len: nat)
    requires b < |s.slots|
  {
    forall n: nat :: Follow(s, b, n) == 0 <==> n >= len
  }

  /** Every chain is finite. */
  lemma ChainsEnd(run: seq<State>, i: nat, b: nat)
    requires IsRun(run) && i < |run| && b < |run[i].slots|
    ensures exists len: nat :: EndsAfter(run[i], b, len)
  {
    RunInv(run, i);
    var s := run[i];
    var len := |s.chains[b]|;
    forall n: nat ensures Follow(s, b, n) == 0 <==> n >= len {
      FollowIs(s, b, n);
      if n < len { assert ElementOK(s, b, len - n - 1); }
    }
    assert EndsAfter(s, b, len);
  }

  /** A chain holds only keys that belong to its slot, no element or key twice, and shares no element with
      another chain. */
  lemma ChainsApart(run: seq<State>, i: nat, b: nat, n: nat, c: nat, m: nat)
    requires IsRun(run) && i < |run| && b < |run[i].slots| && c < |run[i].slots| && Follow(run[i], b, n) != 0 &&
        Follow(run[i], c, m) != 0
    ensures var s, x, y := run[i], Follow(run[i], b, n), Follow(run[i], c, m);
      && x < |s.slots| && y < |s.slots| && Reduce(s.hash(s.slots[x].key), |s.slots|) == b
      && (x == y ==> b == c && n == m) && (b == c && s.slots[x].key == s.slots[y].key ==> n == m)
  {
    RunInv(run, i);
    var s := run[i];
    FollowIs(s, b, n);
    FollowIs(s, c, m);
    var p, q := |s.chains[b]| - n - 1, |s.chains[c]| - m - 1;
    assert ElementOK(s, b, p) && ElementOK(s, c, q) && Position(s, b, p) && Position(s, c, q);
    assert ApartOK(s);
    hide Inv, OpsOK, ChainsOK, Follow, Reduce;
  }

  // ---------------------------------------------------------------- finds agree for ever

  lemma {:induction false} RunGrows(run: seq<State>, i: nat, j: nat)
    requires IsRun(run) && i <= j < |run|
    ensures Grows(run[i], run[j])
  {
    hide Inv, Start, StepBy;
    if i == j {
      SameGrows(run[i], run[i]);
    } else {
      RunGrows(run, i, j - 1);
      RunInv(run, j - 1);
      assert Step(run[j - 1], run[j]);
      var o: nat :| StepBy(run[j - 1], o, run[j]);
      StepInv(run[j - 1], o, run[j]);
      GrowsTransitive(run[i], run[j - 1], run[j]);
    }
  }

  lemma GrowsTransitive(a: State, b: State, c: State)
    requires Grows(a, b) && Grows(b, c)
    ensures Grows(a, c)
  {
    forall x | 0 <= x < |a.chains| ensures a.chains[x] <= c.chains[x] {
        assert a.chains[x] <= b.chains[x] <= c.chains[x]; }
    forall x, n | Position(a, x, n) ensures KeyAt(c, x, n) == KeyAt(a, x, n) {
      assert a.chains[x] <= b.chains[x];
      assert Position(b, x, n);
    }
  }

  function SlotOf(s: State, key: Key): nat
    requires |s.slots| > 0
  {
    Reduce(s.hash(key), |s.slots|)
  }

  /** A call that looks for the key and still has element n of the chain ahead, or has returned it. */
  ghost predicate OnTrack(s: State, o: OpId, key: Key, b: nat, n: nat, idx: nat) {
    || (o in s.ops && o !in s.results && s.ops[o].room.None? && s.ops[o].key == key && s.ops[o].slot == b
        && (s.ops[o].pc.LoadHead? || s.ops[o].pc.WalkLoad? || (s.ops[o].pc.Walk? && s.ops[o].curLen > n)))
    || (o !in s.ops && o in s.results && s.results[o] == Found(idx))
  }

  /** A step of one call leaves the others alone. */
  ghost predicate Footprint(s: State, p: OpId, s': State) {
    && (forall o :: o != p ==> (o in s'.ops <==> o in s.ops) && (o in s.ops ==> s'.ops[o] == s.ops[o]))
    && (forall o :: o != p ==>
        (o in s'.results <==> o in s.results) && (o in s.results ==> s'.results[o] == s.results[o]))
  }

  lemma SetFootprint(s: State, p: OpId, op: Op, s': State)
    requires s'.ops == s.ops[p := op] && s'.results == s.results
    ensures Footprint(s, p, s')
  {}

  lemma ReturnFootprint(s: State, p: OpId, r: Result, s': State)
    requires s'.ops == s.ops - {p} && s'.results == s.results[p := r]
    ensures Footprint(s, p, s')
  {}

  lemma SearchFootprint(s: State, p: OpId, s': State)
    requires DoLoadHead(s, p, s') || DoWalkLoad(s, p, s') || DoWalk(s, p, s') || DoAllocLoad(s, p, s') ||
        DoAllocCas(s, p, s')
    ensures Footprint(s, p, s')
  {
    hide Footprint, BucketState, Head;
    if s' == s { SameFootprint(s, p); }
    else if p in s'.ops { SetFootprint(s, p, s'.ops[p], s'); }
    else { ReturnFootprint(s, p, s'.results[p], s'); }
  }

  lemma BuildFootprint(s: State, p: OpId, s': State)
    requires DoConstruct(s, p, s') || DoSetNext(s, p, s') || DoCas(s, p, s') || DoPromote(s, p, s') ||
        DoAbandon(s, p, s')
    ensures Footprint(s, p, s')
  {
    hide Footprint, BucketState, Head;
    if p in s'.ops { SetFootprint(s, p, s'.ops[p], s'); } else { ReturnFootprint(s, p, s'.results[p], s'); }
  }

  lemma StepFootprint(s: State, p: OpId, s': State)
    requires StepBy(s, p, s')
    ensures Footprint(s, p, s')
  {
    hide Footprint, DoLoadHead, DoWalkLoad, DoWalk, DoAllocLoad, DoAllocCas, DoConstruct, DoSetNext, DoCas, DoPromote,
        DoAbandon, Reduce;
    if DoLoadHead(s, p, s') || DoWalkLoad(s, p, s') || DoWalk(s, p, s') || DoAllocLoad(s, p, s') ||
        DoAllocCas(s, p, s') { SearchFootprint(s, p, s'); }
    else if CallStep(s, p, s') { BuildFootprint(s, p, s'); }
    else { SetFootprint(s, p, s'.ops[p], s'); }
  }

  lemma SameFootprint(s: State, p: OpId)
    ensures Footprint(s, p, s)
  {}

  lemma TrackStep(s: State, p: OpId, s': State, o: OpId, key: Key, b: nat, n: nat, idx: nat)
    requires Inv(s) && StepBy(s, p, s') && Position(s, b, n) && s.chains[b][n] == idx && KeyAt(s, b, n) == key &&
        OnTrack(s, o, key, b, n, idx)
    ensures OnTrack(s', o, key, b, n, idx)
  {
    if p != o {
      hide Inv, StepBy;
      StepFootprint(s, p, s');
    } else if o in s.ops {
      OpAt(s, o);
      Shape(s);
      if s.ops[o].pc.Walk? { TrackWalk(s, o, s', key, b, n, idx); }
      else { hide Inv, OpOK, ChainsOK, ApartOK, Reduce; }
    } else {
      hide Inv, Reduce;
    }
  }

  lemma TrackWalk(s: State, o: OpId, s': State, key: Key, b: nat, n: nat, idx: nat)
    requires Inv(s) && StepBy(s, o, s') && Position(s, b, n) && s.chains[b][n] == idx && KeyAt(s, b, n) == key
    requires OnTrack(s, o, key, b, n, idx) && o in s.ops && s.ops[o].pc.Walk?
    ensures OnTrack(s', o, key, b, n, idx)
  {
    OpAt(s, o);
    Shape(s);
    var op := s.ops[o];
    hide Inv;
    OpWalks(s, op);
    WalkPlace(s, op);
    assert Position(s, b, op.curLen - 1);
    assert KeyAt(s, b, op.curLen - 1) == key ==> op.curLen - 1 == n;
    hide ChainsOK, ApartOK, OpOK, WalkOK, Reduce, KeyAt;
  }

  lemma {:induction false} FindTracks(run: seq<State>, i: nat, j: nat, o: OpId, key: Key, b: nat, n: nat, idx: nat)
    requires IsRun(run) && i <= j < |run| && Position(run[i], b, n) && run[i].chains[b][n] == idx &&
        KeyAt(run[i], b, n) == key
    requires OnTrack(run[i], o, key, b, n, idx)
    ensures OnTrack(run[j], o, key, b, n, idx) && Position(run[j], b, n) && run[j].chains[b][n] == idx &&
        KeyAt(run[j], b, n) == key
  {
    hide Inv, Start, StepBy, OnTrack;
    if i < j {
      FindTracks(run, i, j - 1, o, key, b, n, idx);
      RunInv(run, j - 1);
      assert Step(run[j - 1], run[j]);
      var p: nat :| StepBy(run[j - 1], p, run[j]);
      StepInv(run[j - 1], p, run[j]);
      TrackStep(run[j - 1], p, run[j], o, key, b, n, idx);
      assert run[j - 1].chains[b] <= run[j].chains[b];
    }
  }

  /** A find or findOrConstruct of the key that has not looked at the chain yet. */
  ghost predicate Fresh(s: State, o: OpId, key: Key) {
    && o in s.ops && o !in s.results && s.ops[o].key == key
    && (s.ops[o].pc.LoadHead? || (s.ops[o].lookup && s.ops[o].pc.WalkLoad?))
  }

  /** Once the element is in the chain, every find and every findOrConstruct of its key that begins later returns it. */
  lemma FindIsStable(run: seq<State>, i: nat, j: nat, o: OpId, key: Key, idx: nat)
    requires IsRun(run) && i <= j < |run| && |run[i].slots| > 0 && FoundOK(run[i], key, SlotOf(run[i], key), idx)
    requires Fresh(run[i], o, key)
    ensures o in run[j].results ==> run[j].results[o] == Found(idx)
  {
    var b := SlotOf(run[i], key);
    var n :| Position(run[i], b, n) && run[i].chains[b][n] == idx && KeyAt(run[i], b, n) == key;
    RunInv(run, i);
    OpAt(run[i], o);
    FreshHasNoRoom(run[i], run[i].ops[o]);
    hide Inv;
    FindTracks(run, i, j, o, key, b, n, idx);
  }

  lemma FreshHasNoRoom(s: State, op: Op)
    requires OpOK(s, op) && (op.pc.LoadHead? || op.lookup)
    ensures op.room.None?
  {
    hide WalkOK, InChain, Reduce;
  }

  // ---------------------------------------------------------------- one slot for each key

  /** The call returns in this step, with an index: it found the element or made it. */
  ghost predicate Returns(s: State, o: OpId, s': State, idx: nat) {
    && StepBy(s, o, s') && o in s.ops && o !in s.results
    && o in s'.results && (s'.results[o] == Found(idx) || s'.results[o] == Made(idx))
  }

  /** Whatever way a call comes by its index, the element is in the chain of its key. */
  lemma ReturnedIsThere(s: State, o: OpId, s': State, idx: nat)
    requires Inv(s) && Returns(s, o, s', idx)
    ensures FoundOK(s', s.ops[o].key, s.ops[o].slot, idx)
  {
    hide Inv, FoundOK, DoLoadHead, DoWalkLoad, DoWalk, DoAllocLoad, DoAllocCas, DoConstruct, DoSetNext, DoCas,
        DoPromote,
      DoAbandon;
    if DoWalk(s, o, s') { FoundIsThere(s, o, s', idx); }
    else if DoAbandon(s, o, s') { GivenUpIsThere(s, o, s', idx); }
    else if DoCas(s, o, s') { PushedIsThere(s, o, s', idx); }
    else if DoPromote(s, o, s') { PromotedIsThere(s, o, s', idx); }
    else { OthersReturnNothing(s, o, s', idx); }
  }

  lemma OthersReturnNothing(s: State, o: OpId, s': State, idx: nat)
    requires o in s.ops && o !in s.results && StepBy(s, o, s')
    requires !DoWalk(s, o, s') && !DoAbandon(s, o, s') && !DoCas(s, o, s') && !DoPromote(s, o, s')
    ensures o in s'.results ==> s'.results[o] == Threw
  {
    hide Reduce, DoWalk, DoAbandon, DoCas, DoPromote;
  }

  /** A walk that ends at its key: the element is in the chain. */
  lemma FoundIsThere(s: State, o: OpId, s': State, idx: nat)
    requires Inv(s) && DoWalk(s, o, s') && o in s'.results && o !in s.results
    requires s'.results[o] == Found(idx) || s'.results[o] == Made(idx)
    ensures FoundOK(s', s.ops[o].key, s.ops[o].slot, idx)
  {
    OpAt(s, o);
    Shape(s);
    hide Inv, ChainsOK, OpOK, WalkOK, FoundOK;
    OpWalks(s, s.ops[o]);
    WalkPlace(s, s.ops[o]);
    WalkFound(s, s.ops[o]);
    SameGrows(s, s');
    FoundStable(s, s', s.ops[o].key, s.ops[o].slot, idx);
  }

  /** One that lost the race to another of its key and gives its room back. */
  lemma GivenUpIsThere(s: State, o: OpId, s': State, idx: nat)
    requires Inv(s) && DoAbandon(s, o, s') && o !in s.results
    requires o in s'.results && (s'.results[o] == Found(idx) || s'.results[o] == Made(idx))
    ensures FoundOK(s', s.ops[o].key, s.ops[o].slot, idx)
  {
    OpAt(s, o);
    assert FoundOK(s, s.ops[o].key, s.ops[o].slot, idx);
    hide Inv, OpOK, FoundOK;
    assert StepBy(s, o, s');
    StepInv(s, o, s');
    FoundStable(s, s', s.ops[o].key, s.ops[o].slot, idx);
  }

  /** One whose element becomes the head of its own slot's chain. */
  lemma PushedIsThere(s: State, o: OpId, s': State, idx: nat)
    requires Inv(s) && DoCas(s, o, s') && o !in s.results
    requires o in s'.results && (s'.results[o] == Found(idx) || s'.results[o] == Made(idx))
    ensures FoundOK(s', s.ops[o].key, s.ops[o].slot, idx)
  {
    OpAt(s, o);
    Shape(s);
    RoomKey(s, s.ops[o]);
    hide Inv, OpOK, ChainsOK;
    var b, n := s.ops[o].slot, |s.chains[s.ops[o].slot]|;
    assert Position(s', b, n) && s'.chains[b][n] == idx && KeyAt(s', b, n) == s.ops[o].key;
  }

  lemma RoomKey(s: State, op: Op)
    requires OpOK(s, op) && op.pc.Cas? && op.room.Some?
    ensures op.room.value < |s.slots| && s.slots[op.room.value].key == op.key
  {
    hide WalkOK, InChain, Reduce;
  }

  /** One whose element is in the chain already and only has its own slot's state to set. */
  lemma PromotedIsThere(s: State, o: OpId, s': State, idx: nat)
    requires Inv(s) && DoPromote(s, o, s') && o !in s.results
    requires o in s'.results && (s'.results[o] == Found(idx) || s'.results[o] == Made(idx))
    ensures FoundOK(s', s.ops[o].key, s.ops[o].slot, idx)
  {
    OpAt(s, o);
    PromotingIsThere(s, s.ops[o]);
    hide Inv, OpOK, FoundOK;
    assert StepBy(s, o, s');
    StepInv(s, o, s');
    FoundStable(s, s', s.ops[o].key, s.ops[o].slot, idx);
  }

  lemma PromotingIsThere(s: State, op: Op)
    requires OpOK(s, op) && op.pc.Promote? && op.room.Some?
    ensures FoundOK(s, op.key, op.slot, op.room.value)
  {
    hide WalkOK, InChain, Reduce, FoundOK;
  }

  lemma {:induction false} SlotStays(run: seq<State>, i: nat, o: OpId, s: State, idx: nat, j: nat)
    requires IsRun(run) && 0 < i <= j < |run| && s == run[i - 1] && Returns(s, o, run[i], idx)
    ensures |run[j].slots| > 0 && FoundOK(run[j], s.ops[o].key, SlotOf(run[j], s.ops[o].key), idx)
  {
    hide Inv, FoundOK, StepBy, Grows;
    RunInv(run, i - 1);
    ReturnedIsThere(s, o, run[i], idx);
    RunGrows(run, i, j);
    RunGrows(run, i - 1, j);
    FoundStable(run[i], run[j], s.ops[o].key, s.ops[o].slot, idx);
    SlotKept(run[i - 1], o, run[j]);
  }

  lemma SlotKept(s: State, o: OpId, t: State)
    requires Inv(s) && o in s.ops && Grows(s, t)
    ensures |t.slots| > 0 && SlotOf(t, s.ops[o].key) == s.ops[o].slot
  {
    OpAt(s, o);
    hide Inv, WalkOK, InChain, RoomOK;
  }

  /** All calls of one key that ever return an index return the same one: finds, makers, and those that lost the race.
      */
  lemma OneSlotPerKey(run: seq<State>, i: nat, j: nat, o: OpId, p: OpId, x: nat, y: nat)
    requires IsRun(run) && 0 < i <= j < |run| && Returns(run[i - 1], o, run[i], x) && Returns(run[j - 1], p, run[j], y)
    requires run[i - 1].ops[o].key == run[j - 1].ops[p].key
    ensures x == y
  {
    hide StepBy;
    var key := run[j - 1].ops[p].key;
    SlotStays(run, i, o, run[i - 1], x, j);
    SlotStays(run, j, p, run[j - 1], y, j);
    RunInv(run, j);
    assert ApartOK(run[j]);
    hide Inv;
    var s, b := run[j], SlotOf(run[j], key);
    var n :| Position(s, b, n) && s.chains[b][n] == x && KeyAt(s, b, n) == key;
    var m :| Position(s, b, m) && s.chains[b][m] == y && KeyAt(s, b, m) == key;
  }

  /** And a call begun after any of them has returned gets that index, whether it meant to make the element or not. */
  lemma LaterCallsAgree(run: seq<State>, i: nat, j: nat, k: nat, o: OpId, p: OpId, idx: nat)
    requires IsRun(run) && 0 < i <= j <= k < |run| && Returns(run[i - 1], o, run[i], idx)
    requires Fresh(run[j], p, run[i - 1].ops[o].key) && p in run[k].results
    ensures run[k].results[p] == Found(idx)
  {
    hide FoundOK, StepBy;
    SlotStays(run, i, o, run[i - 1], idx, j);
    FindIsStable(run, j, k, p, run[i - 1].ops[o].key, idx);
  }
}
