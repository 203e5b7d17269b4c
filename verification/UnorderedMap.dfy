/** AtomicUnorderedInsertMap: every slot is at once the head of a collision chain and room for one element.
    Elements are pushed on the front of their chain with a single compare-and-swap and never leave it. */
module UnorderedMap {
  import opened Options

  type Key = int
  type OpId = nat

  const EMPTY: nat := 0
  const CONSTRUCTING: nat := 1
  const LINKED: nat := 2

  /** headAndState_ packs the index of the first element of the chain and the state of this slot's own room. */
  datatype Slot = Slot(word: nat, next: nat, key: Key)

  function Head(word: nat): nat { word / 4 }

  function BucketState(word: nat): nat { word % 4 }

  // ---------------------------------------------------------------- which chain a key belongs to

  /** keyToSlotIdx: the masked hash, reduced by repeated subtraction. */
  function Reduce(h: nat, numSlots: nat): nat
    requires numSlots > 0
  {
    if h >= numSlots then Reduce(h - numSlots, numSlots) else h
  }

  lemma {:induction false} ReduceInside(h: nat, numSlots: nat)
    requires numSlots > 0
    ensures Reduce(h, numSlots) < numSlots
  {
    if h >= numSlots { ReduceInside(h - numSlots, numSlots); }
  }

  // ---------------------------------------------------------------- calls under way

  datatype Pc =
    | LoadHead                                   // prev, read before the search
    | WalkLoad | Walk                            // find(key, slot)
    | AllocLoad | AllocCas(c: nat, seen: nat)    // allocateNear
    | Construct | SetNext | Cas                  // build, point at the old head, try to become the head
    | Promote                                    // CONSTRUCTING to LINKED
    | Abandon(existing: nat)                     // give the room back; existing is 0 after an exception

  /** lookup: a plain find. prevLen and curLen record how long the chain was where prev and the walk stand. */
  datatype Op = Op(lookup: bool, key: Key, slot: nat, pc: Pc, prev: nat, prevLen: nat, cur: nat, curLen: nat,
      room: Option<nat>)

  datatype Result = Found(idx: nat) | NotFound | Made(idx: nat) | Threw

  /** chains is history: the elements of each chain in the order in which they were pushed. */
  datatype State = State(hash: Key -> nat, slots: seq<Slot>, ops: map<OpId, Op>, results: map<OpId, Result>,
      chains: seq<seq<nat>>)

  function SetOp(s: State, o: OpId, op: Op): State { s.(ops := s.ops[o := op]) }

  function Return(s: State, o: OpId, r: Result): State { s.(ops := s.ops - {o}, results := s.results[o := r]) }

  function SetSlot(s: State, i: nat, x: Slot): State
    requires i < |s.slots|
  {
    s.(slots := s.slots[i := x])
  }

  ghost predicate At(s: State, o: OpId, pc: Pc) {
    o in s.ops && s.ops[o].pc == pc && s.ops[o].slot < |s.slots| == |s.chains|
  }

  ghost predicate Begin(s: State, o: OpId, lookup: bool, key: Key, s': State) {
    && o !in s.ops && o !in s.results && |s.slots| > 0
    && s' == SetOp(s, o, Op(lookup, key, Reduce(s.hash(key), |s.slots|), if lookup then WalkLoad
        else LoadHead, 0, 0, 0, 0, None))
  }

  ghost predicate DoLoadHead(s: State, o: OpId, s': State) {
    && At(s, o, LoadHead)
    && var op := s.ops[o];
       s' == SetOp(s, o, op.(pc := WalkLoad, prev := s.slots[op.slot].word, prevLen := |s.chains[op.slot]|))
  }

  ghost predicate DoWalkLoad(s: State, o: OpId, s': State) {
    && At(s, o, WalkLoad)
    && var op := s.ops[o];
       s' == SetOp(s, o, op.(pc := Walk, cur := Head(s.slots[op.slot].word), curLen := |s.chains[op.slot]|))
  }

  /** The search looks at one element: done, found, or on to the next. */
  ghost predicate DoWalk(s: State, o: OpId, s': State) {
    && At(s, o, Walk) && s.ops[o].cur < |s.slots|
    && var op := s.ops[o];
       s' == if op.cur == 0 then
               if op.lookup then Return(s, o, NotFound) else SetOp(s, o,
                   op.(pc := if op.room.Some? then SetNext else AllocLoad))
             else if s.slots[op.cur].key == op.key then
               if op.room.Some? then SetOp(s, o, op.(pc := Abandon(op.cur))) else Return(s, o, Found(op.cur))
             else SetOp(s, o, op.(cur := s.slots[op.cur].next, curLen := if op.curLen > 0 then op.curLen - 1 else 0))
  }

  /** Any slot may be tried; after enough failures the call throws. */
  ghost predicate DoAllocLoad(s: State, o: OpId, s': State) {
    && At(s, o, AllocLoad)
    && (s' == Return(s, o, Threw)
        || exists c: nat :: c < |s.slots| &&
             s' == if BucketState(s.slots[c].word) == EMPTY then
                 SetOp(s, o, s.ops[o].(pc := AllocCas(c, s.slots[c].word))) else s)
  }

  ghost predicate DoAllocCas(s: State, o: OpId, s': State) {
    && o in s.ops && s.ops[o].pc.AllocCas? && s.ops[o].pc.c < |s.slots|
    && var op := s.ops[o];
    && var c := op.pc.c;
       s' == if s.slots[c].word == op.pc.seen then
               SetSlot(SetOp(s, o, op.(pc := Construct, room := Some(c))), c,
                   s.slots[c].(word := op.pc.seen + CONSTRUCTING))
             else SetOp(s, o, op.(pc := AllocLoad))
  }

  /** Key and value are built; either may throw. */
  ghost predicate DoConstruct(s: State, o: OpId, s': State) {
    && At(s, o, Construct) && s.ops[o].room.Some? && s.ops[o].room.value < |s.slots|
    && var op, i := s.ops[o], s.ops[o].room.value;
       (s' == SetOp(s, o, op.(pc := Abandon(0))) || s' == SetSlot(SetOp(s, o, op.(pc := SetNext)), i,
           s.slots[i].(key := op.key)))
  }

  ghost predicate DoSetNext(s: State, o: OpId, s': State) {
    && At(s, o, SetNext) && s.ops[o].room.Some? && s.ops[o].room.value < |s.slots|
    && var op, i := s.ops[o], s.ops[o].room.value;
       s' == SetSlot(SetOp(s, o, op.(pc := Cas)), i, s.slots[i].(next := Head(op.prev)))
  }

  /** The new head word: the element in front, and either LINKED at once or the old state of the slot. */
  ghost predicate DoCas(s: State, o: OpId, s': State) {
    && At(s, o, Cas) && s.ops[o].room.Some? && s.ops[o].room.value < |s.slots|
    && var op, i := s.ops[o], s.ops[o].room.value;
       if s.slots[op.slot].word == op.prev then
         var after := 4 * i + if op.slot == i then LINKED else BucketState(op.prev);
         var linked := SetSlot(s, op.slot,
             s.slots[op.slot].(word := after)).(chains := s.chains[op.slot := s.chains[op.slot] + [i]]);
         s' == if op.slot == i then Return(linked, o, Made(i)) else SetOp(linked, o, op.(pc := Promote))
       else
         s' == SetOp(s, o, op.(pc := WalkLoad, prev := s.slots[op.slot].word, prevLen := |s.chains[op.slot]|))
  }

  ghost predicate DoPromote(s: State, o: OpId, s': State) {
    && At(s, o, Promote) && s.ops[o].room.Some? && s.ops[o].room.value < |s.slots|
    && var i := s.ops[o].room.value;
       s' == SetSlot(Return(s, o, Made(i)), i, s.slots[i].(word := s.slots[i].word + LINKED - CONSTRUCTING))
  }

  ghost predicate DoAbandon(s: State, o: OpId, s': State) {
    && o in s.ops && s.ops[o].pc.Abandon? && s.ops[o].room.Some? && s.ops[o].room.value < |s.slots|
    && s.slots[s.ops[o].room.value].word >= CONSTRUCTING
    && var i := s.ops[o].room.value;
       s' == SetSlot(Return(s, o, if s.ops[o].pc.existing == 0 then Threw else Found(s.ops[o].pc.existing)), i,
                     s.slots[i].(word := s.slots[i].word - CONSTRUCTING))
  }

  ghost predicate CallStep(s: State, o: OpId, s': State) {
    || DoLoadHead(s, o, s') || DoWalkLoad(s, o, s') || DoWalk(s, o, s') || DoAllocLoad(s, o, s') || DoAllocCas(s, o, s')
    || DoConstruct(s, o, s') || DoSetNext(s, o, s') || DoCas(s, o, s') || DoPromote(s, o, s') || DoAbandon(s, o, s')
  }

  ghost predicate StepBy(s: State, o: OpId, s': State) {
    CallStep(s, o, s') || exists lookup, key :: Begin(s, o, lookup, key, s')
  }

  ghost predicate Step(s: State, s': State) {
    exists o: nat :: StepBy(s, o, s')
  }

  /** All slots are zero except that slot 0, the nil index, counts as taken. */
  ghost predicate Start(s: State) {
    && |s.slots| > 0 && |s.chains| == |s.slots| && s.ops == map[] && s.results == map[]
    && (forall i :: 0 <= i < |s.slots| ==>
        s.slots[i].word == (if i == 0 then CONSTRUCTING else EMPTY) && s.chains[i] == [])
  }

  ghost predicate IsRun(run: seq<State>) {
    |run| > 0 && Start(run[0]) && forall i :: 0 < i < |run| ==> Step(run[i - 1], run[i])
  }

  // ---------------------------------------------------------------- what every run keeps

  /** The element a walk stands on when n elements are still to come, or nil. */
  function Standing(chain: seq<nat>, n: nat): nat {
    if 0 < n <= |chain| then chain[n - 1] else 0
  }

  /** Position n of chain b: room in the table, linked behind it what was pushed before, a key that belongs here. */
  ghost predicate ElementOK(s: State, b: nat, n: nat)
    requires b < |s.chains| && n < |s.chains[b]| && |s.slots| > 0
  {
    var i := s.chains[b][n];
    && 0 < i < |s.slots| && s.slots[i].next == Standing(s.chains[b], n)
    && Reduce(s.hash(s.slots[i].key), |s.slots|) == b && BucketState(s.slots[i].word) != EMPTY
  }

  ghost predicate ChainsOK(s: State) {
    && |s.slots| > 0 && |s.chains| == |s.slots|
    && (forall b :: 0 <= b < |s.chains| ==> Head(s.slots[b].word) == Standing(s.chains[b], |s.chains[b]|))
    && (forall b, n :: 0 <= b < |s.chains| && 0 <= n < |s.chains[b]| ==> ElementOK(s, b, n))
    && BucketState(s.slots[0].word) == CONSTRUCTING && (forall b :: 0 <= b < |s.slots| ==>
        BucketState(s.slots[b].word) <= 2)
  }

  /** No element is in two places, and no key is twice in a chain. */
  ghost predicate ApartOK(s: State) {
    && (forall b, n, c, m :: Position(s, b, n) && Position(s, c, m) && s.chains[b][n] == s.chains[c][m] ==>
        b == c && n == m)
    && (forall b, n, m :: Position(s, b, n) && Position(s, b, m) && KeyAt(s, b, n) == KeyAt(s, b, m) ==> n == m)
  }

  ghost predicate Position(s: State, b: int, n: int) {
    0 <= b < |s.chains| && 0 <= n < |s.chains[b]|
  }

  function KeyAt(s: State, b: int, n: int): Key {
    if 0 <= b < |s.chains| && 0 <= n < |s.chains[b]| && s.chains[b][n] < |s.slots| then s.slots[s.chains[b][n]].key
        else 0
  }

  predicate InChain(s: State, i: nat) {
    exists b :: 0 <= b < |s.chains| && i in s.chains[b]
  }

  /** Which of the first n elements of the chain do not have the key. */
  ghost predicate Without(s: State, b: nat, from: nat, to: nat, key: Key) {
    b < |s.chains| && to <= |s.chains[b]| && forall n :: from <= n < to ==> KeyAt(s, b, n) != key
  }

  ghost predicate WalkOK(s: State, op: Op) {
    && op.slot < |s.chains| && op.prevLen <= |s.chains[op.slot]|
    && Head(op.prev) == Standing(s.chains[op.slot], op.prevLen)
    && (op.pc.Walk? ==> op.curLen <= |s.chains[op.slot]| && op.cur == Standing(s.chains[op.slot], op.curLen)
                        && Without(s, op.slot, op.curLen, op.prevLen, op.key))
    && ((op.pc.AllocLoad? || op.pc.AllocCas? || op.pc.Construct? || op.pc.SetNext? || op.pc.Cas?) ==>
          Without(s, op.slot, 0, op.prevLen, op.key))
  }

  /** Room taken by a call that has not linked it yet belongs to that call alone. */
  ghost predicate RoomOK(s: State, op: Op) {
    match op.room
    case None => !op.pc.Construct? && !op.pc.SetNext? && !op.pc.Cas? && !op.pc.Promote? && !op.pc.Abandon?
    case Some(i) =>
      && 0 < i < |s.slots| && BucketState(s.slots[i].word) == CONSTRUCTING && !op.lookup
      && !op.pc.AllocLoad? && !op.pc.AllocCas? && !op.pc.LoadHead?
      && (op.pc.Promote? <==> InChain(s, i))
      && (op.pc.SetNext? || op.pc.Cas? || op.pc.WalkLoad? || op.pc.Walk? ==> s.slots[i].key == op.key)
      && (op.pc.Cas? ==> s.slots[i].next == Head(op.prev))
  }

  ghost predicate FoundOK(s: State, key: Key, b: nat, idx: nat) {
    exists n :: Position(s, b, n) && s.chains[b][n] == idx && KeyAt(s, b, n) == key
  }

  ghost predicate OpOK(s: State, op: Op) {
    && |s.slots| > 0 && op.slot == Reduce(s.hash(op.key), |s.slots|) && op.slot < |s.slots|
    && (!op.pc.LoadHead? && !op.pc.Promote? && !op.pc.Abandon? ==> WalkOK(s, op))
    && RoomOK(s, op)
    && (op.lookup ==> op.pc.WalkLoad? || op.pc.Walk?)
    && (op.pc.AllocCas? ==> op.pc.c < |s.slots| && BucketState(op.pc.seen) == EMPTY)
    && (op.pc.Promote? && op.room.Some? ==> FoundOK(s, op.key, op.slot, op.room.value))
    && (op.pc.Abandon? && op.pc.existing != 0 ==> FoundOK(s, op.key, op.slot, op.pc.existing))
  }

  ghost predicate OpsOK(s: State) {
    && (forall o :: o in s.ops ==> OpOK(s, s.ops[o]))
    && (forall o, p :: o in s.ops && p in s.ops && o != p && s.ops[o].room.Some? ==> s.ops[p].room != s.ops[o].room)
  }

  ghost predicate Inv(s: State) {
    ChainsOK(s) && ApartOK(s) && OpsOK(s)
  }
}
