/** AtomicHashMap: a row of AtomicHashArrays, each allocated by the one thread that claims its place. An insert
    tries the arrays in order and goes on only when one reports that it is full. */
module HashMap {
  import HA = HashArray
  import HP = HashArrayProofs

  type Key = HA.Key
  type Tid = nat

  /** subMaps_[i]: null, the locked pointer, or a sub-map. */
  datatype Slot = Null | Claimed(who: Tid) | SubMap

  /** Where an insert is; o is its call into the sub-map it is trying. */
  datatype Pc =
    | Load                                  // numMapsAllocated_
    | Enter(i: nat) | Inside(i: nat, o: HA.OpId)
    | Claim | Store | Publish | Wait
    | EnterNew | InsideNew(o: HA.OpId)

  datatype Insert = Insert(k: Key, next: nat, pc: Pc)

  /** Where a find is: the first sub-map is searched before numMapsAllocated_ is read. */
  datatype FindPc = Try(i: nat) | Trying(i: nat, o: HA.OpId) | Count

  datatype Find = Find(k: Key, maps: nat, pc: FindPc)

  datatype Result = Done(sub: nat, r: HA.Result) | Threw | MapFull | FoundAt(sub: nat, idx: nat) | Missing

  /** mayGrow: the first sub-map's capacity times the growth fraction is at least one. claims and stores are history:
      who locked a place and who filled it, in order. */
  datatype State = State(mayGrow: bool, subs: seq<HA.State>, slots: seq<Slot>, numMaps: nat, inserts: map<Tid, Insert>,
                         finds: map<Tid, Find>, results: map<Tid, Result>, claims: seq<(nat, Tid)>,
                             stores: seq<(nat, Tid)>)

  function SetInsert(s: State, t: Tid, ins: Insert): State { s.(inserts := s.inserts[t := ins]) }

  function Finish(s: State, t: Tid, r: Result): State { s.(inserts := s.inserts - {t}, results := s.results[t := r]) }

  ghost predicate At(s: State, t: Tid) { t in s.inserts }

  ghost predicate Begin(s: State, t: Tid, k: Key, s': State) {
    t !in s.inserts && t !in s.finds && t !in s.results && s' == SetInsert(s, t, Insert(k, 0, Load))
  }

  ghost predicate DoLoad(s: State, t: Tid, s': State) {
    && At(s, t) && s.inserts[t].pc.Load?
    && s' == SetInsert(s, t, s.inserts[t].(next := s.numMaps, pc := if s.numMaps == 0 then Claim else Enter(0)))
  }

  /** The insert starts its call into sub-map i. */
  ghost predicate DoEnter(s: State, t: Tid, s': State) {
    && At(s, t) && (s.inserts[t].pc.Enter? || s.inserts[t].pc.EnterNew?)
    && var ins := s.inserts[t];
    && var i := if ins.pc.Enter? then ins.pc.i else ins.next;
    && i < |s.subs|
    && exists o, sub :: HA.Begin(s.subs[i], o, HA.Insert(ins.k, 0, HA.Look), sub)
         && s' == SetInsert(s, t, ins.(pc := if ins.pc.Enter? then Inside(i, o)
             else InsideNew(o))).(subs := s.subs[i := sub])
  }

  /** The call has returned: done, or the next sub-map, or a new one. */
  ghost predicate DoLeave(s: State, t: Tid, s': State) {
    && At(s, t) && s.inserts[t].pc.Inside? && s.inserts[t].pc.i < |s.subs|
    && var ins := s.inserts[t];
    && var i, o := ins.pc.i, ins.pc.o;
    && o in s.subs[i].results
    && var r := s.subs[i].results[o];
       s' == if r.Threw? then Finish(s, t, Threw)
             else if r != HA.Full then Finish(s, t, Done(i, r))
             else SetInsert(s, t, ins.(pc := if i + 1 < ins.next then Enter(i + 1) else Claim))
  }

  /** All known sub-maps are full: claim the next place, if there is one. */
  ghost predicate DoClaim(s: State, t: Tid, s': State) {
    && At(s, t) && s.inserts[t].pc.Claim?
    && var ins := s.inserts[t];
       s' == if ins.next >= |s.slots| || !s.mayGrow then Finish(s, t, MapFull)
             else if s.slots[ins.next].Null? then
               SetInsert(s, t, ins.(pc := Store)).(slots := s.slots[ins.next := Claimed(t)],
                   claims := s.claims + [(ins.next, t)])
             else SetInsert(s, t, ins.(pc := Wait))
  }

  ghost predicate DoStore(s: State, t: Tid, s': State) {
    && At(s, t) && s.inserts[t].pc.Store? && s.inserts[t].next < |s.slots|
    && var ins := s.inserts[t];
       exists sub :: HA.Start(sub) &&
         s' == SetInsert(s, t, ins.(pc := Publish)).(slots := s.slots[ins.next := SubMap], subs := s.subs + [sub],
                                                     stores := s.stores + [(ins.next, t)])
  }

  ghost predicate DoPublish(s: State, t: Tid, s': State) {
    && At(s, t) && s.inserts[t].pc.Publish?
    && s' == SetInsert(s, t, s.inserts[t].(pc := EnterNew)).(numMaps := s.numMaps + 1)
  }

  ghost predicate DoWait(s: State, t: Tid, s': State) {
    && At(s, t) && s.inserts[t].pc.Wait?
    && s' == if s.inserts[t].next >= s.numMaps then s else SetInsert(s, t, s.inserts[t].(pc := EnterNew))
  }

  ghost predicate DoLeaveNew(s: State, t: Tid, s': State) {
    && At(s, t) && s.inserts[t].pc.InsideNew? && s.inserts[t].next < |s.subs|
    && var ins := s.inserts[t];
    && ins.pc.o in s.subs[ins.next].results
    && var r := s.subs[ins.next].results[ins.pc.o];
       s' == if r.Threw? then Finish(s, t, Threw)
             else if r != HA.Full then Finish(s, t, Done(ins.next, r))
             else SetInsert(s, t, ins.(pc := Load))
  }

  // ---------------------------------------------------------------- findInternal

  function SetFind(s: State, t: Tid, f: Find): State { s.(finds := s.finds[t := f]) }

  function Answer(s: State, t: Tid, r: Result): State { s.(finds := s.finds - {t}, results := s.results[t := r]) }

  ghost predicate BeginFind(s: State, t: Tid, k: Key, s': State) {
    t !in s.inserts && t !in s.finds && t !in s.results && s' == SetFind(s, t, Find(k, 0, Try(0)))
  }

  ghost predicate DoTry(s: State, t: Tid, s': State) {
    && t in s.finds && s.finds[t].pc.Try? && s.finds[t].pc.i < |s.subs|
    && var f, i := s.finds[t], s.finds[t].pc.i;
       exists o, sub :: HA.Begin(s.subs[i], o, HA.Find(f.k, 0), sub) &&
         s' == SetFind(s, t, f.(pc := Trying(i, o))).(subs := s.subs[i := sub])
  }

  ghost predicate DoTried(s: State, t: Tid, s': State) {
    && t in s.finds && s.finds[t].pc.Trying? && s.finds[t].pc.i < |s.subs|
    && var f, i, o := s.finds[t], s.finds[t].pc.i, s.finds[t].pc.o;
    && o in s.subs[i].results
    && var r := s.subs[i].results[o];
       s' == if r.Found? then Answer(s, t, FoundAt(i, r.idx))
             else if i == 0 then SetFind(s, t, f.(pc := Count))
             else if i + 1 < f.maps then SetFind(s, t, f.(pc := Try(i + 1)))
             else Answer(s, t, Missing)
  }

  ghost predicate DoCount(s: State, t: Tid, s': State) {
    && t in s.finds && s.finds[t].pc.Count?
    && s' == if 1 < s.numMaps then SetFind(s, t, s.finds[t].(maps := s.numMaps, pc := Try(1)))
        else Answer(s, t, Missing)
  }

  ghost predicate FindStep(s: State, t: Tid, s': State) {
    DoTry(s, t, s') || DoTried(s, t, s') || DoCount(s, t, s') || exists k :: BeginFind(s, t, k, s')
  }

  /** Any call inside any sub-map moves; finds and erases may begin there at any time. */
  ghost predicate SubStep(s: State, i: nat, o: HA.OpId, s': State) {
    && i < |s.subs| && |s'.subs| == |s.subs| && HA.StepBy(s.subs[i], o, s'.subs[i]) && o !in s.subs[i].results
    && (o !in s.subs[i].ops ==> o in s'.subs[i].ops && !s'.subs[i].ops[o].Insert?)
    && s' == s.(subs := s.subs[i := s'.subs[i]])
  }

  ghost predicate InsertStep(s: State, t: Tid, s': State) {
    || DoLoad(s, t, s') || DoEnter(s, t, s') || DoLeave(s, t, s') || DoClaim(s, t, s') || DoStore(s, t, s') ||
        DoPublish(s, t, s')
    || DoWait(s, t, s') || DoLeaveNew(s, t, s') || exists k :: Begin(s, t, k, s')
  }

  ghost predicate Step(s: State, s': State) {
    || (exists t: nat :: InsertStep(s, t, s'))
    || (exists t: nat :: FindStep(s, t, s'))
    || (exists i: nat, o: nat :: SubStep(s, i, o, s'))
  }

  ghost predicate Start(s: State) {
    && |s.subs| == 1 && HA.Start(s.subs[0]) && |s.slots| > 0 && s.slots[0] == SubMap &&
        (forall i :: 0 < i < |s.slots| ==> s.slots[i] == Null)
    && s.numMaps == 1 && s.inserts == map[] && s.results == map[] && s.claims == [] && s.stores == [] &&
        s.finds == map[]
  }

  ghost predicate IsRun(run: seq<State>) {
    |run| > 0 && Start(run[0]) && forall i :: 0 < i < |run| ==> Step(run[i - 1], run[i])
  }

  // ---------------------------------------------------------------- what every run keeps

  /** Every earlier sub-map has been reported full for k. */
  ghost predicate FullBefore(subs: seq<HA.State>, i: nat, k: Key) {
    i <= |subs| && forall j :: 0 <= j < i ==> k in subs[j].fullFor
  }

  /** What is in sub-map i, and what is on its way there, came past all earlier ones. */
  ghost predicate SubOK(s: State, i: nat)
    requires i < |s.subs|
  {
    && HP.Inv(s.subs[i])
    && (forall o :: o in s.subs[i].ops && s.subs[i].ops[o].Insert? ==> FullBefore(s.subs, i, s.subs[i].ops[o].k))
    && (forall c :: 0 <= c < |s.subs[i].cells| && s.subs[i].cells[c].Holds? ==>
        FullBefore(s.subs, i, s.subs[i].cells[c].key))
    && (forall o :: o in s.subs[i].ops ==> o !in s.subs[i].results)
  }

  ghost predicate SubsOK(s: State) {
    forall i :: 0 <= i < |s.subs| ==> SubOK(s, i)
  }

  /** A call under way carries the key; one that has reported full has left its mark. */
  ghost predicate CallOK(sub: HA.State, o: HA.OpId, k: Key) {
    || (o in sub.ops && sub.ops[o].Insert? && sub.ops[o].k == k && o !in sub.results)
    || (o !in sub.ops && o in sub.results && (sub.results[o] == HA.Full ==> k in sub.fullFor))
  }

  ghost predicate InsertOK(s: State, t: Tid, ins: Insert) {
    && ins.next <= s.numMaps
    && (match ins.pc
        case Load => true
        case Enter(i) => i < ins.next && FullBefore(s.subs, i, ins.k)
        case Inside(i, o) => i < ins.next && i < |s.subs| && FullBefore(s.subs, i, ins.k) && CallOK(s.subs[i], o, ins.k)
        case Claim => FullBefore(s.subs, ins.next, ins.k)
        case Store => FullBefore(s.subs, ins.next, ins.k) && ins.next < |s.slots| && s.slots[ins.next] == Claimed(t)
        case Publish => FullBefore(s.subs, ins.next, ins.k) && ins.next == s.numMaps && |s.subs| == s.numMaps + 1
        case Wait => FullBefore(s.subs, ins.next, ins.k)
        case EnterNew => FullBefore(s.subs, ins.next, ins.k) && ins.next < |s.subs| && ins.next < s.numMaps
        case InsideNew(o) =>
          && FullBefore(s.subs, ins.next, ins.k) && ins.next < |s.subs|
          && CallOK(s.subs[ins.next], o, ins.k))
  }

  ghost predicate InsertsOK(s: State) {
    forall t :: t in s.inserts ==> InsertOK(s, t, s.inserts[t])
  }

  /** Places are taken from the left; one may be claimed or stored but not yet published. */
  ghost predicate SlotsOK(s: State) {
    && 1 <= s.numMaps <= |s.subs| <= s.numMaps + 1 && |s.subs| <= |s.slots|
    && (forall i :: 0 <= i < |s.slots| ==> (s.slots[i].SubMap? <==> i < |s.subs|))
    && (forall i :: 0 <= i < |s.slots| && s.slots[i].Claimed? ==> i == |s.subs| == s.numMaps)
    && (|s.subs| == s.numMaps + 1 ==> exists t :: t in s.inserts && s.inserts[t].pc.Publish?)
    && (forall t, u ::
          t in s.inserts && u in s.inserts && s.inserts[t].pc.Publish? && s.inserts[u].pc.Publish? ==> t == u)
  }

  /** No place is claimed twice, a locked place is its claimant's, and sub-map i was stored by whoever claimed i. */
  ghost predicate ClaimsOK(s: State) {
    && (forall a, b :: 0 <= a < b < |s.claims| ==> s.claims[a].0 != s.claims[b].0)
    && (forall a :: 0 <= a < |s.claims| ==> s.claims[a].0 < |s.slots| && !s.slots[s.claims[a].0].Null?)
    && (forall i :: 0 <= i < |s.slots| && s.slots[i].Claimed? ==> (i, s.slots[i].who) in s.claims)
    && |s.stores| + 1 == |s.subs|
    && (forall b :: 0 <= b < |s.stores| ==> s.stores[b].0 == b + 1 && s.stores[b] in s.claims)
  }

  /** A sub-map that has not been published is empty, and no insert is on its way into it. */
  ghost predicate FreshOK(s: State) {
    forall i :: s.numMaps <= i < |s.subs| ==> Untouched(s.subs[i])
  }

  ghost predicate Untouched(sub: HA.State) {
    && (forall c :: 0 <= c < |sub.cells| ==> !sub.cells[c].Holds?)
    && (forall o :: o in sub.ops ==> !sub.ops[o].Insert?)
  }

  ghost predicate Inv(s: State) {
    SubsOK(s) && InsertsOK(s) && SlotsOK(s) && ClaimsOK(s) && FreshOK(s)
  }

  // ---------------------------------------------------------------- inside a sub-map

  ghost predicate Grown(subs: seq<HA.State>, subs': seq<HA.State>) {
    |subs'| >= |subs| && forall j :: 0 <= j < |subs| ==> subs[j].fullFor <= subs'[j].fullFor
  }

  lemma SubStepSub(s: State, i: nat, o: HA.OpId, s': State, j: nat)
    requires SubsOK(s) && SubStep(s, i, o, s') && j < |s'.subs|
    ensures SubOK(s', j) && s.subs[j].fullFor <= s'.subs[j].fullFor
  {
    hide HP.Inv, HA.StepBy;
    assert SubOK(s, i) && SubOK(s, j);
    var sub, sub' := s.subs[i], s'.subs[i];
    HP.StepInv(sub, o, sub');
    HP.StepFootprint(sub, o, sub');
    HP.StepOutcome(sub, o, sub');
    if j == i {
      forall p | p in sub'.ops && sub'.ops[p].Insert? ensures FullBefore(s'.subs, i, sub'.ops[p].k) {
        assert FullBefore(s.subs, i, sub'.ops[p].k);
      }
      forall c | 0 <= c < |sub'.cells| && sub'.cells[c].Holds? ensures FullBefore(s'.subs, i, sub'.cells[c].key) {
        assert FullBefore(s.subs, i, sub'.cells[c].key);
      }
    } else {
      forall k | FullBefore(s.subs, j, k) ensures FullBefore(s'.subs, j, k) {}
    }
  }

  lemma CallKept(sub: HA.State, o: HA.OpId, sub': HA.State, p: HA.OpId, k: Key)
    requires HA.StepBy(sub, o, sub') && o !in sub.results && CallOK(sub, p, k) && (o !in sub.ops ==> o in sub'.ops)
    ensures CallOK(sub', p, k)
  {
    hide HA.StepBy;
    HP.StepFootprint(sub, o, sub');
    HP.StepOutcome(sub, o, sub');
  }

  lemma SubStepInv(s: State, i: nat, o: HA.OpId, s': State)
    requires Inv(s) && SubStep(s, i, o, s')
    ensures Inv(s')
  {
    hide HA.StepBy, SubOK;
    forall j | 0 <= j < |s'.subs| ensures SubOK(s', j) && s.subs[j].fullFor <= s'.subs[j].fullFor {
        SubStepSub(s, i, o, s', j); }
    forall t | t in s'.inserts ensures InsertOK(s', t, s'.inserts[t]) {
      SubStepInsert(s, i, o, s', t);
    }
    SubStepFresh(s, i, o, s');
    hide InsertOK;
  }

  lemma SubStepInsert(s: State, i: nat, o: HA.OpId, s': State, t: Tid)
    requires SubStep(s, i, o, s') && t in s.inserts && InsertOK(s, t, s.inserts[t]) && Grown(s.subs, s'.subs)
    ensures InsertOK(s', t, s.inserts[t])
  {
    hide HA.StepBy;
    var ins := s.inserts[t];
    if ins.pc.Inside? && ins.pc.i == i { CallKept(s.subs[i], o, s'.subs[i], ins.pc.o, ins.k); }
    if ins.pc.InsideNew? && ins.next == i { CallKept(s.subs[i], o, s'.subs[i], ins.pc.o, ins.k); }
    hide CallOK;
  }

  lemma SubStepFresh(s: State, i: nat, o: HA.OpId, s': State)
    requires SubsOK(s) && FreshOK(s) && SubStep(s, i, o, s')
    ensures FreshOK(s')
  {
    hide HA.StepBy, HP.Inv;
    assert SubOK(s, i);
    HP.StepInv(s.subs[i], o, s'.subs[i]);
    HP.StepFootprint(s.subs[i], o, s'.subs[i]);
    HP.StepOutcome(s.subs[i], o, s'.subs[i]);
    forall j | s'.numMaps <= j < |s'.subs| ensures Untouched(s'.subs[j]) {
      assert Untouched(s.subs[j]);
      if j == i { StepUntouched(s.subs[i], o, s'.subs[i]); }
    }
  }

  lemma StepUntouched(sub: HA.State, o: HA.OpId, sub': HA.State)
    requires Untouched(sub) && HP.Footprint(sub, o, sub') && HP.Outcome(sub, o, sub') && |sub'.cells| == |sub.cells|
    requires o !in sub.ops ==> o in sub'.ops && !sub'.ops[o].Insert?
    ensures Untouched(sub')
  {
    forall p | p in sub'.ops ensures !sub'.ops[p].Insert? {
      if p != o { assert p in sub.ops && sub'.ops[p] == sub.ops[p]; }
    }
  }

  // ---------------------------------------------------------------- the steps of a find

  /** What does not concern inserts, places or sub-maps. */
  lemma FindsAside(s: State, s': State)
    requires Inv(s) && s' == s.(finds := s'.finds, results := s'.results)
    ensures Inv(s')
  {
    hide InsertOK, Untouched;
    SubsSame(s, s');
    forall t | t in s'.inserts ensures InsertOK(s', t, s'.inserts[t]) { InsertSame(s, s', t); }
    hide SubsOK;
  }

  lemma InsertSame(s: State, s': State, t: Tid)
    requires t in s.inserts && InsertOK(s, t, s.inserts[t]) && s' == s.(finds := s'.finds, results := s'.results)
    ensures InsertOK(s', t, s'.inserts[t])
  {}

  /** A find starts a call in a sub-map as any caller might. */
  lemma TryIsSubStep(s: State, t: Tid, s': State) returns (i: nat, o: HA.OpId, mid: State)
    requires DoTry(s, t, s')
    ensures SubStep(s, i, o, mid) && s' == mid.(finds := s'.finds, results := s'.results) && mid.subs == s'.subs
    ensures i == s.finds[t].pc.i && o !in s.subs[i].results &&
        HA.Begin(s.subs[i], o, HA.Find(s.finds[t].k, 0), s'.subs[i])
    ensures s'.finds == s.finds[t := s.finds[t].(pc := Trying(i, o))] && s'.results == s.results
  {
    var f := s.finds[t];
    i := f.pc.i;
    var o0: nat, sub :| HA.Begin(s.subs[i], o0, HA.Find(f.k, 0), sub) &&
      s' == SetFind(s, t, f.(pc := Trying(i, o0))).(subs := s.subs[i := sub]);
    o := o0;
    mid := s.(subs := s.subs[i := sub]);
    assert HA.StepBy(s.subs[i], o, sub);
  }

  lemma FindStepInv(s: State, t: Tid, s': State)
    requires Inv(s) && FindStep(s, t, s')
    ensures Inv(s')
  {
    hide Inv, SubStep;
    if DoTry(s, t, s') {
      var i, o, mid := TryIsSubStep(s, t, s');
      SubStepInv(s, i, o, mid);
      FindsAside(mid, s');
    } else {
      FindsAside(s, s');
    }
  }

  // ---------------------------------------------------------------- the steps of an insert

  lemma InsertKept(s: State, s': State, t: Tid, u: Tid)
    requires u in s.inserts && InsertOK(s, u, s.inserts[u]) && u != t && u in s'.inserts &&
        s'.inserts[u] == s.inserts[u]
    requires Grown(s.subs, s'.subs) && s.numMaps <= s'.numMaps && |s'.slots| == |s.slots|
    requires forall i :: 0 <= i < |s.subs| ==> CallsKept(s.subs[i], s'.subs[i])
    requires forall i :: 0 <= i < |s.slots| && s.slots[i] == Claimed(u) ==> s'.slots[i] == s.slots[i]
    requires s.inserts[u].pc.Publish? ==> s'.numMaps == s.numMaps && |s'.subs| == |s.subs|
    ensures InsertOK(s', u, s'.inserts[u])
  {}

  /** Calls already there are untouched. */
  ghost predicate CallsKept(sub: HA.State, sub': HA.State) {
    && sub'.results == sub.results && sub'.fullFor == sub.fullFor
    && (forall o :: o in sub.ops ==> o in sub'.ops && sub'.ops[o] == sub.ops[o])
    && (forall o :: o in sub.results && o !in sub.ops ==> o !in sub'.ops)
  }

  /** Steps that leave sub-maps and places alone. */
  lemma PlainStep(s: State, t: Tid, s': State)
    requires Inv(s) && s' == s.(inserts := s'.inserts, results := s'.results)
    requires s'.inserts == s.inserts - {t} || (t in s'.inserts && s'.inserts == s.inserts[t := s'.inserts[t]])
    requires t in s'.inserts ==> InsertOK(s', t, s'.inserts[t]) && !s'.inserts[t].pc.Publish?
    requires t in s.inserts ==> !s.inserts[t].pc.Publish?
    ensures Inv(s')
  {
    assert SubsOK(s') by {
      forall i | 0 <= i < |s'.subs| ensures SubOK(s', i) { assert SubOK(s, i); }
    }
    forall u | u in s'.inserts ensures InsertOK(s', u, s'.inserts[u]) {
      if u != t { assert InsertOK(s, u, s.inserts[u]); InsertKept(s, s', t, u); }
    }
    assert SlotsOK(s') by {
      if |s.subs| == s.numMaps + 1 {
        var u :| u in s.inserts && s.inserts[u].pc.Publish?;
        assert u in s'.inserts && s'.inserts[u].pc.Publish?;
      }
    }
    hide SubsOK, SlotsOK, InsertOK;
  }

  lemma Mine(s: State, t: Tid)
    requires Inv(s) && t in s.inserts
    ensures InsertOK(s, t, s.inserts[t]) && SlotsOK(s)
  {
    hide InsertOK, SubsOK;
  }

  lemma LoadInv(s: State, t: Tid, s': State)
    requires Inv(s) && (DoLoad(s, t, s') || DoWait(s, t, s'))
    ensures Inv(s')
  {
    hide Inv;
    Mine(s, t);
    if s' != s { PlainStep(s, t, s'); }
  }

  lemma LeaveInv(s: State, t: Tid, s': State)
    requires Inv(s) && (DoLeave(s, t, s') || DoLeaveNew(s, t, s'))
    ensures Inv(s')
  {
    hide Inv;
    Mine(s, t);
    PlainStep(s, t, s');
  }

  lemma BeginInv(s: State, t: Tid, k: Key, s': State)
    requires Inv(s) && Begin(s, t, k, s')
    ensures Inv(s')
  {
    hide Inv;
    PlainStep(s, t, s');
  }

  lemma ClaimInv(s: State, t: Tid, s': State)
    requires Inv(s) && DoClaim(s, t, s')
    ensures Inv(s')
  {
    Mine(s, t);
    var ins := s.inserts[t];
    if ins.next < |s.slots| && s.mayGrow && s.slots[ins.next].Null? {
      hide InsertOK, SubOK;
      assert SubsOK(s') by { SubsSame(s, s'); }
      ClaimInserts(s, t, s');
      ClaimSlots(s, t, s');
      ClaimClaims(s, t, s');
      hide SubsOK, InsertsOK, SlotsOK, ClaimsOK;
    } else {
      hide Inv;
      PlainStep(s, t, s');
    }
  }

  lemma SubsSame(s: State, s': State)
    requires SubsOK(s) && s'.subs == s.subs
    ensures SubsOK(s')
  {
    forall i | 0 <= i < |s'.subs| ensures SubOK(s', i) { assert SubOK(s, i); }
  }

  lemma ClaimInserts(s: State, t: Tid, s': State)
    requires Inv(s) && DoClaim(s, t, s') && s.inserts[t].next < |s.slots| && s.slots[s.inserts[t].next].Null? &&
        s.mayGrow
    ensures InsertsOK(s')
  {
    hide SubsOK, SlotsOK, ClaimsOK;
    forall u | u in s'.inserts ensures InsertOK(s', u, s'.inserts[u]) {
      assert InsertOK(s, u, s.inserts[u]);
      if u != t { InsertKept(s, s', t, u); }
    }
  }

  lemma ClaimSlots(s: State, t: Tid, s': State)
    requires Inv(s) && DoClaim(s, t, s') && s.inserts[t].next < |s.slots| && s.slots[s.inserts[t].next].Null? &&
        s.mayGrow
    ensures SlotsOK(s')
  {
    hide SubsOK, ClaimsOK, FullBefore, CallOK;
    assert InsertOK(s, t, s.inserts[t]);
  }

  lemma ClaimClaims(s: State, t: Tid, s': State)
    requires Inv(s) && DoClaim(s, t, s') && s.inserts[t].next < |s.slots| && s.slots[s.inserts[t].next].Null? &&
        s.mayGrow
    ensures ClaimsOK(s')
  {
    hide SubsOK, InsertsOK, SlotsOK, FreshOK;
    assert s'.claims[|s.claims|] == (s.inserts[t].next, t);
  }

  lemma StoreInv(s: State, t: Tid, s': State)
    requires Inv(s) && DoStore(s, t, s')
    ensures Inv(s')
  {
    Mine(s, t);
    hide InsertOK;
    StoreSubs(s, t, s');
    StoreInserts(s, t, s');
    StoreSlots(s, t, s');
    hide SubsOK, InsertsOK, SlotsOK;
  }

  lemma StoreSubs(s: State, t: Tid, s': State)
    requires SubsOK(s) && DoStore(s, t, s')
    ensures SubsOK(s') && Grown(s.subs, s'.subs)
  {
    var sub :| HA.Start(sub) && s'.subs == s.subs + [sub];
    HP.StartInv(sub);
    forall i | 0 <= i < |s'.subs| ensures SubOK(s', i) {
      if i < |s.subs| {
        assert SubOK(s, i);
        hide HP.Inv;
        forall k | FullBefore(s.subs, i, k) ensures FullBefore(s'.subs, i, k) {}
      }
    }
  }

  lemma StoreInserts(s: State, t: Tid, s': State)
    requires Inv(s) && DoStore(s, t, s') && Grown(s.subs, s'.subs)
    ensures InsertsOK(s')
  {
    hide SubsOK, ClaimsOK;
    assert InsertOK(s, t, s.inserts[t]);
    forall u | u in s'.inserts ensures InsertOK(s', u, s'.inserts[u]) {
      assert InsertOK(s, u, s.inserts[u]);
      if u != t { StoreOther(s, s', t, u); }
    }
  }

  lemma StoreOther(s: State, s': State, t: Tid, u: Tid)
    requires SlotsOK(s) && DoStore(s, t, s') && InsertOK(s, t, s.inserts[t]) && u in s.inserts && u != t &&
        InsertOK(s, u, s.inserts[u]) && Grown(s.subs, s'.subs)
    ensures InsertOK(s', u, s'.inserts[u])
  {
    hide HA.Start;
    InsertKept(s, s', t, u);
  }

  lemma StoreSlots(s: State, t: Tid, s': State)
    requires Inv(s) && DoStore(s, t, s')
    ensures SlotsOK(s') && ClaimsOK(s')
  {
    hide SubsOK, FullBefore, CallOK, HA.Start;
    assert InsertOK(s, t, s.inserts[t]);
    forall u | u in s.inserts ensures !s.inserts[u].pc.Publish? { assert InsertOK(s, u, s.inserts[u]); }
    assert t in s'.inserts && s'.inserts[t].pc.Publish?;
  }

  lemma PublishInv(s: State, t: Tid, s': State)
    requires Inv(s) && DoPublish(s, t, s')
    ensures Inv(s')
  {
    Mine(s, t);
    hide InsertOK;
    assert SubsOK(s') by { SubsSame(s, s'); }
    hide SubsOK;
    PublishInserts(s, t, s');
    PublishSlots(s, t, s');
  }

  lemma PublishInserts(s: State, t: Tid, s': State)
    requires Inv(s) && DoPublish(s, t, s')
    ensures InsertsOK(s')
  {
    hide SubsOK, ClaimsOK;
    forall u | u in s'.inserts ensures InsertOK(s', u, s'.inserts[u]) {
      assert InsertOK(s, u, s.inserts[u]);
      if u != t { InsertKept(s, s', t, u); }
    }
  }

  lemma PublishSlots(s: State, t: Tid, s': State)
    requires Inv(s) && DoPublish(s, t, s')
    ensures SlotsOK(s')
  {
    hide SubsOK, ClaimsOK, FullBefore, CallOK;
    assert InsertOK(s, t, s.inserts[t]);
  }

  lemma EnterInv(s: State, t: Tid, s': State)
    requires Inv(s) && DoEnter(s, t, s')
    ensures Inv(s')
  {
    Mine(s, t);
    var ins := s.inserts[t];
    var i := if ins.pc.Enter? then ins.pc.i else ins.next;
    var o, sub :| HA.Begin(s.subs[i], o, HA.Insert(ins.k, 0, HA.Look), sub)
         && s' == SetInsert(s, t, ins.(pc := if ins.pc.Enter? then Inside(i, o)
             else InsideNew(o))).(subs := s.subs[i := sub]);
    hide InsertOK;
    EnterSubs(s, t, i, o, sub, s');
    EnterInserts(s, t, i, o, sub, s');
    EnterSlots(s, t, i, o, sub, s');
    hide SubsOK, InsertsOK, SlotsOK;
  }

  lemma EnterSubs(s: State, t: Tid, i: nat, o: HA.OpId, sub: HA.State, s': State)
    requires Inv(s) && t in s.inserts && i < |s.subs| && FullAt(s, t, i) && s'.subs == s.subs[i := sub]
    requires HA.Begin(s.subs[i], o, HA.Insert(s.inserts[t].k, 0, HA.Look), sub)
    ensures SubsOK(s') && Grown(s.subs, s'.subs) && CallsKept(s.subs[i], sub)
  {
    hide InsertsOK, SlotsOK, ClaimsOK;
    assert SubOK(s, i);
    HP.BeginInv(s.subs[i], o, HA.Insert(s.inserts[t].k, 0, HA.Look), sub);
    hide HP.Inv;
    forall j, k | FullBefore(s.subs, j, k) ensures FullBefore(s'.subs, j, k) {}
    forall j | 0 <= j < |s'.subs| ensures SubOK(s', j) { assert SubOK(s, j); }
  }

  /** The insert has come past every sub-map before i. */
  ghost predicate FullAt(s: State, t: Tid, i: nat) {
    t in s.inserts && FullBefore(s.subs, i, s.inserts[t].k)
  }

  lemma EnterInserts(s: State, t: Tid, i: nat, o: HA.OpId, sub: HA.State, s': State)
    requires Inv(s) && t in s.inserts && i < |s.subs| && Grown(s.subs, s'.subs) && CallsKept(s.subs[i], sub)
    requires (s.inserts[t].pc.Enter? && i == s.inserts[t].pc.i) || (s.inserts[t].pc.EnterNew? && i == s.inserts[t].next)
    requires HA.Begin(s.subs[i], o, HA.Insert(s.inserts[t].k, 0, HA.Look), sub)
    requires s' == SetInsert(s, t, s.inserts[t].(pc := if s.inserts[t].pc.Enter? then Inside(i, o)
        else InsideNew(o))).(subs := s.subs[i := sub])
    ensures InsertsOK(s')
  {
    hide SubsOK, SlotsOK, ClaimsOK;
    forall u | u in s'.inserts ensures InsertOK(s', u, s'.inserts[u]) {
      assert InsertOK(s, u, s.inserts[u]);
      if u != t { InsertKept(s, s', t, u); }
    }
  }

  lemma EnterSlots(s: State, t: Tid, i: nat, o: HA.OpId, sub: HA.State, s': State)
    requires Inv(s) && t in s.inserts && i < |s.subs| && (s.inserts[t].pc.Enter? || s.inserts[t].pc.EnterNew?)
    requires s' == SetInsert(s, t, s.inserts[t].(pc := if s.inserts[t].pc.Enter? then Inside(i, o)
        else InsideNew(o))).(subs := s.subs[i := sub])
    ensures SlotsOK(s') && ClaimsOK(s')
  {
    hide SubsOK, InsertsOK;
    if |s.subs| == s.numMaps + 1 {
      var u :| u in s.inserts && s.inserts[u].pc.Publish?;
      assert u in s'.inserts && s'.inserts[u].pc.Publish?;
    }
  }

  // ---------------------------------------------------------------- every run

  lemma StartInv(s: State)
    requires Start(s)
    ensures Inv(s)
  {
    HP.StartInv(s.subs[0]);
    hide HP.Inv;
  }

  lemma StepInv(s: State, s': State)
    requires Inv(s) && Step(s, s')
    ensures Inv(s')
  {
    hide Inv, DoLoad, DoEnter, DoLeave, DoClaim, DoStore, DoPublish, DoWait, DoLeaveNew, SubStep, FindStep;
    if exists i: nat, o: nat :: SubStep(s, i, o, s') {
      var i: nat, o: nat :| SubStep(s, i, o, s');
      SubStepInv(s, i, o, s');
    } else if exists t: nat :: FindStep(s, t, s') {
      var t: nat :| FindStep(s, t, s');
      FindStepInv(s, t, s');
    } else {
      var t :| InsertStep(s, t, s');
      if DoLoad(s, t, s') || DoWait(s, t, s') { LoadInv(s, t, s'); }
      else if DoEnter(s, t, s') { EnterInv(s, t, s'); }
      else if DoLeave(s, t, s') || DoLeaveNew(s, t, s') { LeaveInv(s, t, s'); }
      else if DoClaim(s, t, s') { ClaimInv(s, t, s'); }
      else if DoStore(s, t, s') { StoreInv(s, t, s'); }
      else if DoPublish(s, t, s') { PublishInv(s, t, s'); }
      else { var k :| Begin(s, t, k, s'); BeginInv(s, t, k, s'); }
    }
  }

  lemma {:induction false} RunInv(run: seq<State>, i: nat)
    requires IsRun(run) && i < |run|
    ensures Inv(run[i])
  {
    hide Inv, Start, Step;
    if i == 0 {
      StartInv(run[0]);
    } else {
      RunInv(run, i - 1);
      assert Step(run[i - 1], run[i]);
      StepInv(run[i - 1], run[i]);
    }
  }

  // ---------------------------------------------------------------- what this means for the callers

  /** k is in a cell of sub-map i. */
  ghost predicate LiveIn(s: State, i: nat, k: Key) {
    i < |s.subs| && exists c :: 0 <= c < |s.subs[i].cells| && s.subs[i].cells[c] == HA.Holds(k)
  }

  /** No key is ever live in two sub-maps. */
  lemma LiveInOneSubMap(run: seq<State>, t: nat, i: nat, j: nat, k: Key)
    requires IsRun(run) && t < |run| && LiveIn(run[t], i, k) && LiveIn(run[t], j, k)
    ensures i == j
  {
    RunInv(run, t);
    LaterMeansFull(run[t], i, k);
    LaterMeansFull(run[t], j, k);
  }

  lemma LaterMeansFull(s: State, i: nat, k: Key)
    requires Inv(s) && LiveIn(s, i, k)
    ensures forall j :: 0 <= j < i ==> !LiveIn(s, j, k)
  {
    hide HP.Inv;
    assert SubOK(s, i) && FullBefore(s.subs, i, k);
    forall j | 0 <= j < i ensures !LiveIn(s, j, k) {
      assert SubOK(s, j);
      forall c | 0 <= c < |s.subs[j].cells| ensures s.subs[j].cells[c] != HA.Holds(k) {
          HP.BarredIsNotLive(s.subs[j], k, c); }
    }
  }

  /** Once an insert of k has reported sub-map i full, k is not live there at any later moment. */
  lemma FullMeansNeverLive(run: seq<State>, t: nat, u: nat, i: nat, k: Key)
    requires IsRun(run) && t <= u < |run| && i < |run[t].subs| && k in run[t].subs[i].fullFor
    ensures !LiveIn(run[u], i, k)
  {
    hide HP.Inv;
    ReportStays(run, t, u, i, k);
    RunInv(run, u);
    assert SubOK(run[u], i);
    forall c | 0 <= c < |run[u].subs[i].cells| ensures run[u].subs[i].cells[c] != HA.Holds(k) {
        HP.BarredIsNotLive(run[u].subs[i], k, c); }
  }

  lemma {:induction false} ReportStays(run: seq<State>, t: nat, u: nat, i: nat, k: Key)
    requires IsRun(run) && t <= u < |run| && i < |run[t].subs| && k in run[t].subs[i].fullFor
    ensures i < |run[u].subs| && k in run[u].subs[i].fullFor
  {
    hide Inv, Step;
    if t < u {
      ReportStays(run, t, u - 1, i, k);
      assert Step(run[u - 1], run[u]);
      ReportStep(run[u - 1], run[u]);
    }
  }

  lemma ReportStep(s: State, s': State)
    requires Step(s, s')
    ensures Grown(s.subs, s'.subs)
  {
    hide HA.StepBy, HA.Start, FindStep, InsertStep;
    if exists i: nat, o: nat :: SubStep(s, i, o, s') {
      var i: nat, o: nat :| SubStep(s, i, o, s');
      HP.StepFootprint(s.subs[i], o, s'.subs[i]);
    } else if exists t: nat :: FindStep(s, t, s') {
      var t: nat :| FindStep(s, t, s');
      FindReports(s, t, s');
    } else {
      var t :| InsertStep(s, t, s');
      InsertReports(s, t, s');
    }
  }

  lemma FindReports(s: State, t: Tid, s': State)
    requires FindStep(s, t, s')
    ensures Grown(s.subs, s'.subs)
  {
    hide HA.StepBy, HA.Begin;
    if DoTry(s, t, s') {
      var i, o, mid := TryIsSubStep(s, t, s');
      HP.StepFootprint(s.subs[i], o, s'.subs[i]);
      assert s'.subs == s.subs[i := s'.subs[i]];
    }
  }

  lemma BeginKeeps(sub: HA.State, o: HA.OpId, op: HA.Op, sub': HA.State)
    requires HA.Begin(sub, o, op, sub')
    ensures CallsKept(sub, sub')
  {}

  lemma InsertReports(s: State, t: Tid, s': State)
    requires InsertStep(s, t, s')
    ensures Grown(s.subs, s'.subs)
  {
    if DoEnter(s, t, s') {
      var ins := s.inserts[t];
      var i := if ins.pc.Enter? then ins.pc.i else ins.next;
      var o: nat, sub :| HA.Begin(s.subs[i], o, HA.Insert(ins.k, 0, HA.Look), sub) && s'.subs == s.subs[i := sub];
      BeginKeeps(s.subs[i], o, HA.Insert(ins.k, 0, HA.Look), sub);
      forall j | 0 <= j < |s.subs| ensures s.subs[j].fullFor <= s'.subs[j].fullFor {
          assert s'.subs[j] == if j == i then sub else s.subs[j]; }
    } else if DoStore(s, t, s') {
      var sub :| HA.Start(sub) && s'.subs == s.subs + [sub];
    }
  }

  /** Each place is claimed at most once; every sub-map but the first was stored once, in the order of the places,
      and by the thread that had claimed its place. */
  lemma AllocatedOnce(run: seq<State>, t: nat)
    requires IsRun(run) && t < |run|
    ensures var s := run[t];
      && (forall a, b :: 0 <= a < b < |s.claims| ==> s.claims[a].0 != s.claims[b].0)
      && |s.stores| + 1 == |s.subs|
      && (forall b :: 0 <= b < |s.stores| ==> s.stores[b].0 == b + 1 && s.stores[b] in s.claims)
  {
    RunInv(run, t);
  }
}
