/** NodeRecycler of ConcurrentSkipList: accessors count themselves in and out, unlinked nodes are parked,
    and whoever takes the count to zero under the lock destroys what is parked then. */
module Recycler {
  import opened Options

  type Id = nat
  type Accessor = nat

  /** Where an accessor is; each accessor holds one reference from AddRef to its decrement. */
  datatype Pc =
    | In                                       // holding a reference
    | Adding(n: Id) | AddLocked(n: Id)         // recycler.add of a node this accessor has unlinked
    | CheckDirty | CheckRefs | FastDrop        // releaseRef without the lock
    | WaitLock | LockedDrop | Swapping         // releaseRef under the lock
    | Unlocking(doomed: seq<Id>) | Destroying(doomed: seq<Id>)
    | Gone

  predicate Holder(pc: Pc) {
    pc.In? || pc.Adding? || pc.AddLocked? || pc.CheckDirty? || pc.CheckRefs? || pc.FastDrop? || pc.WaitLock? ||
        pc.LockedDrop?
  }

  predicate HasLock(pc: Pc) {
    pc.AddLocked? || pc.LockedDrop? || pc.Swapping? || pc.Unlocking?
  }

  function Doomed(pc: Pc): seq<Id> {
    match pc
    case Unlocking(d) => d
    case Destroying(d) => d
    case _ => []
  }

  /** History of a node: who was in when it was unlinked, and where it is now. */
  datatype Place = Handing(who: Accessor) | Parked | Condemned(who: Accessor) | Destroyed

  datatype State = State(refs: int, dirty: bool, lock: Option<Accessor>, nodes: seq<Id>, pcs: map<Accessor, Pc>,
                         seers: map<Id, set<Accessor>>, place: map<Id, Place>, destroyed: seq<Id>)

  ghost function Holders(pcs: map<Accessor, Pc>): set<Accessor> {
    set a | a in pcs && Holder(pcs[a])
  }

  // ---------------------------------------------------------------- steps

  ghost predicate AddRef(s: State, a: Accessor, s': State) {
    && a !in s.pcs
    && s' == s.(refs := s.refs + 1, pcs := s.pcs[a := In])
  }

  /** The accessor's remove or growHeight has unlinked a node nobody handed over before. */
  ghost predicate Unlink(s: State, a: Accessor, n: Id, s': State) {
    && a in s.pcs && s.pcs[a] == In && n !in s.seers && n !in s.place
    && s' == s.(pcs := s.pcs[a := Adding(n)], seers := s.seers[n := Holders(s.pcs)], place := s.place[n := Handing(a)])
  }

  ghost predicate TakeLock(s: State, a: Accessor, s': State) {
    && a in s.pcs && s.lock == None && (s.pcs[a].Adding? || s.pcs[a].WaitLock?)
    && s' == s.(lock := Some(a), pcs := s.pcs[a := if s.pcs[a].Adding? then AddLocked(s.pcs[a].n) else LockedDrop])
  }

  ghost predicate Park(s: State, a: Accessor, s': State) {
    && a in s.pcs && s.pcs[a].AddLocked?
    && var n := s.pcs[a].n;
       s' == s.(nodes := s.nodes + [n], dirty := true, lock := None, pcs := s.pcs[a := In],
           place := s.place[n := Parked])
  }

  ghost predicate BeginRelease(s: State, a: Accessor, s': State) {
    && a in s.pcs && s.pcs[a] == In
    && s' == s.(pcs := s.pcs[a := CheckDirty])
  }

  /** The two unlocked loads that choose the fast path. */
  ghost predicate Check(s: State, a: Accessor, s': State) {
    && a in s.pcs && (s.pcs[a] == CheckDirty || s.pcs[a] == CheckRefs)
    && if s.pcs[a] == CheckDirty then s' == s.(pcs := s.pcs[a := if s.dirty then CheckRefs else FastDrop])
       else s' == s.(pcs := s.pcs[a := if s.refs > 1 then FastDrop else WaitLock])
  }

  ghost predicate DropFast(s: State, a: Accessor, s': State) {
    && a in s.pcs && s.pcs[a] == FastDrop
    && s' == s.(refs := s.refs - 1, pcs := s.pcs[a := Gone])
  }

  ghost predicate DropLocked(s: State, a: Accessor, s': State) {
    && a in s.pcs && s.pcs[a] == LockedDrop
    && s' == s.(refs := s.refs - 1, pcs := s.pcs[a := if s.refs == 1 then Swapping else Unlocking([])])
  }

  ghost predicate Swap(s: State, a: Accessor, s': State) {
    && a in s.pcs && s.pcs[a] == Swapping
    && s' == s.(nodes := [], dirty := false, pcs := s.pcs[a := Unlocking(s.nodes)],
                place := map n | n in s.place :: if n in s.nodes then Condemned(a) else s.place[n])
  }

  ghost predicate Unlock(s: State, a: Accessor, s': State) {
    && a in s.pcs && s.pcs[a].Unlocking?
    && s' == s.(lock := None, pcs := s.pcs[a := Destroying(s.pcs[a].doomed)])
  }

  ghost predicate Destroy(s: State, a: Accessor, s': State) {
    && a in s.pcs && s.pcs[a].Destroying?
    && var d := s.pcs[a].doomed;
       if d == [] then s' == s.(pcs := s.pcs[a := Gone])
       else s' == s.(pcs := s.pcs[a := Destroying(d[1..])], destroyed := s.destroyed + [d[0]],
           place := s.place[d[0] := Destroyed])
  }

  ghost predicate StepBy(s: State, a: Accessor, s': State) {
    || AddRef(s, a, s') || TakeLock(s, a, s') || Park(s, a, s') || BeginRelease(s, a, s') || Check(s, a, s')
    || DropFast(s, a, s') || DropLocked(s, a, s') || Swap(s, a, s') || Unlock(s, a, s') || Destroy(s, a, s')
    || exists n :: Unlink(s, a, n, s')
  }

  ghost predicate Step(s: State, s': State) {
    exists a :: StepBy(s, a, s')
  }

  ghost predicate Start(s: State) {
    s == State(0, false, None, [], map[], map[], map[], [])
  }

  ghost predicate IsRun(run: seq<State>) {
    |run| > 0 && Start(run[0]) && forall i :: 0 < i < |run| ==> Step(run[i - 1], run[i])
  }

  // ---------------------------------------------------------------- the invariant

  ghost predicate NoRepeats(s: seq<Id>) {
    forall i, j :: 0 <= i < j < |s| ==> s[i] != s[j]
  }

  /** Everyone who might still look at n has left. */
  ghost predicate Unseen(s: State, n: Id) {
    n in s.seers && forall a :: a in s.seers[n] ==> a in s.pcs && !Holder(s.pcs[a])
  }

  ghost predicate LockOK(s: State) {
    forall a :: a in s.pcs ==> (HasLock(s.pcs[a]) <==> s.lock == Some(a))
  }

  /** The list, each destroyer's share and the destroyed nodes are where the history says. */
  ghost predicate PlacesOK(s: State) {
    && s.place.Keys == s.seers.Keys
    && NoRepeats(s.nodes) && (forall n :: n in s.nodes <==> n in s.place && s.place[n] == Parked)
    && NoRepeats(s.destroyed) && (forall n :: n in s.destroyed <==> n in s.place && s.place[n] == Destroyed)
    && (forall a :: a in s.pcs ==> ShareOK(s, a))
  }

  ghost predicate ShareOK(s: State, a: Accessor)
    requires a in s.pcs
  {
    && NoRepeats(Doomed(s.pcs[a])) && (forall n :: n in Doomed(s.pcs[a]) <==>
        n in s.place && s.place[n] == Condemned(a))
    && (s.pcs[a].Adding? || s.pcs[a].AddLocked? ==> s.pcs[a].n in s.place && s.place[s.pcs[a].n] == Handing(a))
  }

  ghost predicate SeersKnown(s: State) {
    forall n, a :: n in s.seers && a in s.seers[n] ==> a in s.pcs
  }

  ghost predicate SafeOK(s: State) {
    && (forall n :: n in s.place && (s.place[n].Condemned? || s.place[n].Destroyed?) ==> Unseen(s, n))
    && (forall a :: a in s.pcs && s.pcs[a] == Swapping ==> forall n :: n in s.nodes ==> Unseen(s, n))
  }

  ghost predicate Inv(s: State) {
    && s.refs == |Holders(s.pcs)| && LockOK(s) && PlacesOK(s) && SeersKnown(s) && SafeOK(s)
  }

  // ---------------------------------------------------------------- every step keeps it

  lemma HolderCount(pcs: map<Accessor, Pc>, a: Accessor, pc: Pc)
    ensures var before := if a in pcs && Holder(pcs[a]) then 1 else 0;
            var after := if Holder(pc) then 1 else 0;
            |Holders(pcs[a := pc])| == |Holders(pcs)| - before + after
  {
    var rest := Holders(pcs) - {a};
    assert Holders(pcs) == if a in pcs && Holder(pcs[a]) then rest + {a} else rest;
    assert Holders(pcs[a := pc]) == if Holder(pc) then rest + {a} else rest;
  }

  /** Only a decrement changes who holds, and nobody comes back. */
  lemma UnseenKept(s: State, s': State, n: Id)
    requires Unseen(s, n) && n in s'.seers && s'.seers[n] == s.seers[n]
    requires forall a :: a in s.pcs ==> a in s'.pcs && (!Holder(s.pcs[a]) ==> !Holder(s'.pcs[a]))
    ensures Unseen(s', n)
  {}

  ghost predicate NobodyReturns(s: State, s': State) {
    forall a :: a in s.pcs ==> a in s'.pcs && (!Holder(s.pcs[a]) ==> !Holder(s'.pcs[a]))
  }

  lemma SafeKept(s: State, s': State)
    requires SafeOK(s) && NobodyReturns(s, s') && s'.place.Keys == s'.seers.Keys
    requires forall n :: n in s.seers ==> n in s'.seers && s'.seers[n] == s.seers[n]
    requires forall n :: n in s'.place && (s'.place[n].Condemned? || s'.place[n].Destroyed?) ==>
               n in s.place && (s.place[n].Condemned? || s.place[n].Destroyed?)
    requires forall a :: a in s'.pcs && s'.pcs[a] == Swapping ==>
        a in s.pcs && s.pcs[a] == Swapping && s'.nodes == s.nodes
    ensures SafeOK(s')
  {
    forall n | n in s'.place && (s'.place[n].Condemned? || s'.place[n].Destroyed?) ensures Unseen(s', n) {
        UnseenKept(s, s', n); }
    forall a, n | a in s'.pcs && s'.pcs[a] == Swapping && n in s'.nodes ensures Unseen(s', n) { UnseenKept(s, s', n); }
  }

  /** Steps that move one accessor and no node. */
  lemma MoveStep(s: State, a: Accessor, pc: Pc, s': State)
    requires Inv(s) && s' == s.(refs := s'.refs, lock := s'.lock, pcs := s.pcs[a := pc])
    requires s'.refs == s.refs - (if a in s.pcs && Holder(s.pcs[a]) then 1 else 0) + (if Holder(pc) then 1 else 0)
    requires LockOK(s') && pc != Swapping && (a in s.pcs && !Holder(s.pcs[a]) ==> !Holder(pc))
    requires Doomed(pc) == if a in s.pcs then Doomed(s.pcs[a]) else []
    requires pc.Adding? || pc.AddLocked? ==>
        a in s.pcs && (s.pcs[a].Adding? || s.pcs[a].AddLocked?) && pc.n == s.pcs[a].n
    requires a !in s.pcs ==> forall n :: n in s.place ==> s.place[n] != Condemned(a)
    ensures Inv(s')
  {
    HolderCount(s.pcs, a, pc);
    SafeKept(s, s');
    forall b | b in s'.pcs ensures ShareOK(s', b) {
      if b in s.pcs { assert ShareOK(s, b); }
    }
  }

  /** Nodes are condemned only by accessors that exist. */
  ghost predicate KnownJudges(s: State) {
    forall n :: n in s.place && s.place[n].Condemned? ==> s.place[n].who in s.pcs
  }

  lemma AddRefInv(s: State, a: Accessor, s': State)
    requires Inv(s) && KnownJudges(s) && AddRef(s, a, s') && (s.lock.Some? ==> s.lock.value in s.pcs)
    ensures Inv(s')
  {
    MoveStep(s, a, In, s');
  }

  lemma KeysSame(s: State)
    requires PlacesOK(s)
    ensures s.place.Keys == s.seers.Keys && forall n :: n in s.nodes ==> n in s.place && n in s.seers
  {}

  lemma HoldersKnown(pcs: map<Accessor, Pc>)
    ensures forall a :: a in Holders(pcs) ==> a in pcs
  {}

  lemma UnlinkPlaces(s: State, a: Accessor, n: Id, s': State)
    requires PlacesOK(s) && Unlink(s, a, n, s')
    ensures PlacesOK(s')
  {
    forall b | b in s'.pcs ensures ShareOK(s', b) { assert ShareOK(s, b); }
  }

  lemma UnlinkInv(s: State, a: Accessor, n: Id, s': State)
    requires Inv(s) && Unlink(s, a, n, s')
    ensures Inv(s')
  {
    hide PlacesOK, SafeOK, Holders;
    UnlinkPlaces(s, a, n, s');
    KeysSame(s');
    HolderCount(s.pcs, a, Adding(n));
    SafeKept(s, s');
    HoldersKnown(s.pcs);
  }

  lemma ParkPlaces(s: State, a: Accessor, s': State)
    requires PlacesOK(s) && Park(s, a, s')
    ensures PlacesOK(s')
  {
    assert ShareOK(s, a);
    var n := s.pcs[a].n;
    assert forall m :: m in s'.nodes <==> m in s.nodes || m == n;
    forall b | b in s'.pcs ensures ShareOK(s', b) { assert ShareOK(s, b); }
  }

  lemma ParkInv(s: State, a: Accessor, s': State)
    requires Inv(s) && Park(s, a, s')
    ensures Inv(s')
  {
    hide PlacesOK, SafeOK, Holders;
    ParkPlaces(s, a, s');
    KeysSame(s');
    HolderCount(s.pcs, a, In);
    SafeKept(s, s');
  }

  /** The decrement that returns one: nobody is left who could have seen any parked node. */
  lemma DropLockedInv(s: State, a: Accessor, s': State)
    requires Inv(s) && DropLocked(s, a, s')
    ensures Inv(s')
  {
    hide PlacesOK, Holders;
    var pc := if s.refs == 1 then Swapping else Unlocking([]);
    HolderCount(s.pcs, a, pc);
    DropPlaces(s, a, s');
    KeysSame(s');
    if s.refs == 1 {
      EmptyHolders(s'.pcs);
      forall n | n in s'.place && (s'.place[n].Condemned? || s'.place[n].Destroyed?) ensures Unseen(s', n) {
          UnseenKept(s, s', n); }
      forall n | n in s'.nodes ensures Unseen(s', n) {}
    } else {
      SafeKept(s, s');
    }
  }

  lemma DropPlaces(s: State, a: Accessor, s': State)
    requires PlacesOK(s) && DropLocked(s, a, s')
    ensures PlacesOK(s') && s'.place.Keys == s'.seers.Keys
  {
    forall b | b in s'.pcs ensures ShareOK(s', b) { assert ShareOK(s, b); }
  }

  lemma EmptyHolders(pcs: map<Accessor, Pc>)
    requires |Holders(pcs)| == 0
    ensures forall a :: a in pcs ==> !Holder(pcs[a])
  {
    forall a | a in pcs ensures !Holder(pcs[a]) {
      assert Holder(pcs[a]) ==> a in Holders(pcs);
    }
  }

  lemma SwapInv(s: State, a: Accessor, s': State)
    requires Inv(s) && Swap(s, a, s')
    ensures Inv(s')
  {
    HolderCount(s.pcs, a, Unlocking(s.nodes));
    forall n | n in s'.place && (s'.place[n].Condemned? || s'.place[n].Destroyed?) ensures Unseen(s', n) {
        UnseenKept(s, s', n); }
    forall b | b in s'.pcs ensures ShareOK(s', b) { assert ShareOK(s, b) && ShareOK(s, a); }
  }

  lemma DestroyPlaces(s: State, a: Accessor, s': State)
    requires Inv(s) && Destroy(s, a, s') && s.pcs[a].doomed != []
    ensures PlacesOK(s') && s.pcs[a].doomed[0] in s.place && s.place[s.pcs[a].doomed[0]] == Condemned(a)
  {
    hide LockOK, SafeOK, SeersKnown;
    var d := s.pcs[a].doomed;
    assert ShareOK(s, a) && d[0] in d;
    DestroyedList(s, a, s');
    TailShare(d);
    forall b | b in s'.pcs ensures ShareOK(s', b) { assert ShareOK(s, b); }
  }

  lemma DestroyInv(s: State, a: Accessor, s': State)
    requires Inv(s) && Destroy(s, a, s')
    ensures Inv(s')
  {
    hide PlacesOK, SafeOK, SeersKnown, Holders;
    var d := s.pcs[a].doomed;
    if d == [] {
      MoveStep(s, a, Gone, s');
    } else {
      DestroyOne(s, a, d[0], d[1..], s');
    }
  }

  lemma DestroyOne(s: State, a: Accessor, n: Id, rest: seq<Id>, s': State)
    requires Inv(s) && Destroy(s, a, s') && s.pcs[a].doomed != [] && n == s.pcs[a].doomed[0] &&
        rest == s.pcs[a].doomed[1..]
    ensures Inv(s')
  {
    hide PlacesOK, SafeOK, Holders;
    DestroyPlaces(s, a, s');
    KeysSame(s);
    KeysSame(s');
    HolderCount(s.pcs, a, Destroying(rest));
    DestroySafe(s, a, n, rest, s');
  }

  lemma DestroySafe(s: State, a: Accessor, n: Id, rest: seq<Id>, s': State)
    requires SafeOK(s) && a in s.pcs && s.pcs[a].Destroying? && n in s.place && s.place[n] == Condemned(a)
    requires s'.place == s.place[n := Destroyed] && s'.pcs == s.pcs[a := Destroying(rest)] && s'.nodes == s.nodes &&
        s'.seers == s.seers
    requires s'.place.Keys == s'.seers.Keys
    ensures SafeOK(s')
  {
    SafeKept(s, s');
  }

  lemma TailShare(d: seq<Id>)
    requires |d| > 0 && NoRepeats(d)
    ensures NoRepeats(d[1..]) && forall n :: n in d[1..] <==> n in d && n != d[0]
  {
    assert d == [d[0]] + d[1..];
  }

  lemma DestroyedList(s: State, a: Accessor, s': State)
    requires Inv(s) && Destroy(s, a, s') && s.pcs[a].doomed != []
    ensures NoRepeats(s'.destroyed) && forall n :: n in s'.destroyed <==> n in s'.place && s'.place[n] == Destroyed
  {
    assert ShareOK(s, a) && s.pcs[a].doomed[0] in s.pcs[a].doomed;
  }

  ghost predicate FullInv(s: State) {
    Inv(s) && KnownJudges(s) && (s.lock.Some? ==> s.lock.value in s.pcs)
  }

  lemma StepInv(s: State, s': State)
    requires FullInv(s) && Step(s, s')
    ensures FullInv(s')
  {
    var a :| StepBy(s, a, s');
    StepInvBy(s, a, s');
    StepJudges(s, a, s');
  }

  lemma StepInvBy(s: State, a: Accessor, s': State)
    requires FullInv(s) && StepBy(s, a, s')
    ensures Inv(s')
  {
    hide Inv, KnownJudges;
    if AddRef(s, a, s') { AddRefInv(s, a, s'); }
    else if Park(s, a, s') { ParkInv(s, a, s'); }
    else if DropLocked(s, a, s') { DropLockedInv(s, a, s'); }
    else if Swap(s, a, s') { SwapInv(s, a, s'); }
    else if Destroy(s, a, s') { DestroyInv(s, a, s'); }
    else if exists n :: Unlink(s, a, n, s') { var n :| Unlink(s, a, n, s'); UnlinkInv(s, a, n, s'); }
    else { PlainInv(s, a, s'); }
  }

  lemma PlainInv(s: State, a: Accessor, s': State)
    requires Inv(s) && (TakeLock(s, a, s') || BeginRelease(s, a, s') || Check(s, a, s') || DropFast(s, a, s') ||
        Unlock(s, a, s'))
    ensures Inv(s')
  {
    hide PlacesOK, SafeOK, SeersKnown;
    assert LockOK(s');
    hide LockOK;
    MoveStep(s, a, s'.pcs[a], s');
  }

  lemma StepJudges(s: State, a: Accessor, s': State)
    requires FullInv(s) && StepBy(s, a, s')
    ensures KnownJudges(s') && (s'.lock.Some? ==> s'.lock.value in s'.pcs)
  {
    hide Inv;
    forall n | n in s'.place && s'.place[n].Condemned? ensures s'.place[n].who in s'.pcs {
      assert (n in s.place && s.place[n] == s'.place[n]) || s'.place[n].who == a;
    }
  }

  lemma {:induction false} RunInv(run: seq<State>)
    requires IsRun(run)
    ensures FullInv(run[|run| - 1])
  {
    if |run| == 1 {
      assert Holders(run[0].pcs) == {};
    } else {
      var n := |run| - 1;
      RunInv(run[..n]);
      assert Step(run[n - 1], run[n]);
      hide FullInv, Step;
      StepInv(run[n - 1], run[n]);
    }
  }

  /** A node is destroyed at most once, and only when every accessor that was in at the moment it was unlinked
      has given its reference back; accessors that came later do not matter. */
  lemma DestroyedOnceAndUnseen(run: seq<State>)
    requires IsRun(run)
    ensures var s := run[|run| - 1];
      && (forall i, j :: 0 <= i < j < |s.destroyed| ==> s.destroyed[i] != s.destroyed[j])
      && (forall n, a :: n in s.destroyed && n in s.seers && a in s.seers[n] ==> a in s.pcs && !Holder(s.pcs[a]))
      && (forall n :: n in s.destroyed ==> n !in s.nodes)
  {
    RunInv(run);
    var s := run[|run| - 1];
    forall n, a | n in s.destroyed && n in s.seers && a in s.seers[n] ensures a in s.pcs && !Holder(s.pcs[a]) {
      assert Unseen(s, n);
    }
  }

  /** The reference count is the number of accessors that are in. */
  lemma CountIsHolders(run: seq<State>)
    requires IsRun(run)
    ensures run[|run| - 1].refs == |Holders(run[|run| - 1].pcs)|
  {
    RunInv(run);
  }
}
