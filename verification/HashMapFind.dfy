/** AtomicHashMap::findInternal: what a search through the sub-maps returns while they change and grow. */
module HashMapFind {
  import HA = HashArray
  import HP = HashArrayProofs
  import opened HashMap

  /** k stands in cell c of sub-map m, n probes from its anchor. */
  ghost predicate StandsAt(s: State, m: nat, c: nat, k: Key, n: nat) {
    && m < |s.subs| && s.subs[m].a.Valid() && c < |s.subs[m].cells| && s.subs[m].cells[c] == HA.Holds(k)
    && HP.Placed(s.subs[m].a, s.subs[m].cells, c, n)
  }

  /** A call of a find in a sub-map that does not have the key. */
  ghost predicate Misses(sub: HA.State, o: HA.OpId, k: Key) {
    || (o in sub.ops && sub.ops[o].Find? && sub.ops[o].k == k && o !in sub.results)
    || (o !in sub.ops && o in sub.results && sub.results[o] == HA.NotFound)
  }

  ghost predicate PcOK(s: State, f: Find, k: Key, m: nat, c: nat, n: nat) {
    match f.pc
    case Try(x) => x <= m && (x > 0 ==> m < f.maps)
    case Trying(x, o) =>
      && x <= m && x < |s.subs| && (x > 0 ==> m < f.maps)
      && (if x == m then HP.OnTrack(s.subs[m], o, k, n, c) else Misses(s.subs[x], o, k))
    case Count => m > 0
  }

  /** The find has its key still ahead, or has found it. */
  ghost predicate Seeks(s: State, t: Tid, k: Key, m: nat, c: nat, n: nat) {
    && t !in s.inserts
    && if t in s.finds then t !in s.results && s.finds[t].k == k && PcOK(s, s.finds[t], k, m, c, n)
       else t in s.results && s.results[t] == FoundAt(m, c)
  }

  // ---------------------------------------------------------------- the sub-maps

  /** What a step of the map may do to a sub-map. */
  ghost predicate SubMoves(sub: HA.State, sub': HA.State) {
    sub' == sub || exists p: nat :: HA.StepBy(sub, p, sub')
  }

  lemma EveryStepMoves(s: State, s': State, x: nat)
    requires Step(s, s') && x < |s.subs|
    ensures x < |s'.subs| && SubMoves(s.subs[x], s'.subs[x])
  {
    hide HA.StepBy, HA.Begin, HA.Start, InsertStep, FindStep;
    if exists i: nat, o: nat :: SubStep(s, i, o, s') {
      var i: nat, o: nat :| SubStep(s, i, o, s');
    } else if exists t: nat :: FindStep(s, t, s') {
      var t: nat :| FindStep(s, t, s');
      FindMoves(s, t, s', x);
    } else {
      var t: nat :| InsertStep(s, t, s');
      InsertMoves(s, t, s', x);
    }
  }

  lemma FindMoves(s: State, t: Tid, s': State, x: nat)
    requires FindStep(s, t, s') && x < |s.subs|
    ensures x < |s'.subs| && SubMoves(s.subs[x], s'.subs[x])
  {
    hide HA.StepBy, HA.Begin;
    if DoTry(s, t, s') {
      var i, o, mid := TryIsSubStep(s, t, s');
    }
  }

  lemma InsertMoves(s: State, t: Tid, s': State, x: nat)
    requires InsertStep(s, t, s') && x < |s.subs|
    ensures x < |s'.subs| && SubMoves(s.subs[x], s'.subs[x])
  {
    hide HA.Start;
    if DoEnter(s, t, s') {
      var ins := s.inserts[t];
      var i := if ins.pc.Enter? then ins.pc.i else ins.next;
      var o: nat, sub :| HA.Begin(s.subs[i], o, HA.Insert(ins.k, 0, HA.Look), sub) && s'.subs == s.subs[i := sub];
      assert HA.StepBy(s.subs[i], o, sub);
    }
  }

  /** A step by somebody else, seen from one find. */
  ghost predicate Apart(s: State, s': State, t: Tid) {
    && (t in s'.finds <==> t in s.finds) && (t in s.finds ==> s'.finds[t] == s.finds[t])
    && (t in s'.results <==> t in s.results) && (t in s.results ==> s'.results[t] == s.results[t])
    && (t !in s.inserts ==> t !in s'.inserts)
  }

  lemma OthersApart(s: State, s': State, t: Tid)
    requires Step(s, s') && t !in s.inserts && (t in s.finds || t in s.results) && !FindStep(s, t, s')
    ensures Apart(s, s', t)
  {
    hide HA.StepBy, HA.Begin, HA.Start, InsertStep, FindStep;
    if exists i: nat, o: nat :: SubStep(s, i, o, s') {
    } else if exists u: nat :: FindStep(s, u, s') {
      var u: nat :| FindStep(s, u, s');
      FindApart(s, u, s', t);
    } else {
      var u: nat :| InsertStep(s, u, s');
      InsertApart(s, u, s', t);
    }
  }

  /** One entry of a table changes, comes or goes. */
  ghost predicate Touches<T(!new)>(a: map<Tid, T>, b: map<Tid, T>, u: Tid) {
    b == a || b == a - {u} || (u in b && b == a[u := b[u]])
  }

  lemma ByOne(s: State, s': State, u: Tid, t: Tid)
    requires u != t && Touches(s.finds, s'.finds, u) && Touches(s.results, s'.results, u) &&
        Touches(s.inserts, s'.inserts, u)
    ensures Apart(s, s', t)
  {}

  lemma FindApart(s: State, u: Tid, s': State, t: Tid)
    requires FindStep(s, u, s') && u != t
    ensures Apart(s, s', t)
  {
    hide Apart, Touches, DoTry, DoTried;
    if DoTry(s, u, s') { TryApart(s, u, s', t); }
    else if DoTried(s, u, s') { TriedApart(s, u, s', t); }
    else { CountApart(s, u, s', t); }
  }

  lemma TryApart(s: State, u: Tid, s': State, t: Tid)
    requires DoTry(s, u, s') && u != t
    ensures Apart(s, s', t)
  {
    hide HA.Begin, Apart;
    ByOne(s, s', u, t);
  }

  lemma TriedApart(s: State, u: Tid, s': State, t: Tid)
    requires DoTried(s, u, s') && u != t
    ensures Apart(s, s', t)
  {
    hide Apart;
    ByOne(s, s', u, t);
  }

  lemma CountApart(s: State, u: Tid, s': State, t: Tid)
    requires (DoCount(s, u, s') || exists k :: BeginFind(s, u, k, s')) && u != t
    ensures Apart(s, s', t)
  {
    hide Apart;
    ByOne(s, s', u, t);
  }

  lemma InsertApart(s: State, u: Tid, s': State, t: Tid)
    requires InsertStep(s, u, s') && t !in s.inserts && (t in s.finds || t in s.results)
    ensures Apart(s, s', t)
  {
    hide HA.Begin, HA.Start, Apart, DoLoad, DoEnter, DoLeave, DoClaim, DoStore, DoPublish, DoWait, DoLeaveNew;
    if DoEnter(s, u, s') { EnterApart(s, u, s', t); }
    else if DoStore(s, u, s') { StoreApart(s, u, s', t); }
    else if DoLeave(s, u, s') || DoLeaveNew(s, u, s') { LeaveApart(s, u, s', t); }
    else if DoClaim(s, u, s') { ClaimApart(s, u, s', t); }
    else { PlainApart(s, u, s', t); }
  }

  lemma EnterApart(s: State, u: Tid, s': State, t: Tid)
    requires DoEnter(s, u, s') && t !in s.inserts
    ensures Apart(s, s', t)
  {
    hide Apart, HA.Begin, SetInsert;
    var ins := s.inserts[u];
    var i := if ins.pc.Enter? then ins.pc.i else ins.next;
    var o, sub :| HA.Begin(s.subs[i], o, HA.Insert(ins.k, 0, HA.Look), sub) &&
      s' == SetInsert(s, u, ins.(pc := if ins.pc.Enter? then Inside(i, o)
          else InsideNew(o))).(subs := s.subs[i := sub]);
    SetApart(s, u, ins.(pc := if ins.pc.Enter? then Inside(i, o) else InsideNew(o)), s', t);
  }

  lemma StoreApart(s: State, u: Tid, s': State, t: Tid)
    requires DoStore(s, u, s') && t !in s.inserts
    ensures Apart(s, s', t)
  {
    hide Apart, HA.Start, SetInsert;
    var ins := s.inserts[u];
    var sub :| HA.Start(sub) &&
      s' == SetInsert(s, u, ins.(pc := Publish)).(slots := s.slots[ins.next := SubMap], subs := s.subs + [sub],
                                                  stores := s.stores + [(ins.next, u)]);
    SetApart(s, u, ins.(pc := Publish), s', t);
  }

  lemma SetApart(s: State, u: Tid, ins: Insert, s': State, t: Tid)
    requires s' == SetInsert(s, u, ins).(slots := s'.slots, subs := s'.subs, stores := s'.stores) && u != t
    ensures Apart(s, s', t)
  {
    ByOne(s, s', u, t);
  }

  lemma LeaveApart(s: State, u: Tid, s': State, t: Tid)
    requires (DoLeave(s, u, s') || DoLeaveNew(s, u, s')) && t !in s.inserts
    ensures Apart(s, s', t)
  {
    hide Apart;
    assert s'.finds == s.finds;
    assert Touches(s.inserts, s'.inserts, u) && Touches(s.results, s'.results, u) by {
      if u in s'.inserts { assert s'.inserts == s.inserts[u := s'.inserts[u]] && s'.results == s.results; }
      else { assert s'.inserts == s.inserts - {u} && u in s'.results && s'.results == s.results[u := s'.results[u]]; }
    }
    ByOne(s, s', u, t);
  }

  lemma ClaimApart(s: State, u: Tid, s': State, t: Tid)
    requires DoClaim(s, u, s') && t !in s.inserts
    ensures Apart(s, s', t)
  {
    hide Apart;
    ByOne(s, s', u, t);
  }

  lemma PlainApart(s: State, u: Tid, s': State, t: Tid)
    requires DoLoad(s, u, s') || DoPublish(s, u, s') || DoWait(s, u, s') || exists k :: Begin(s, u, k, s')
    requires t !in s.inserts && (t in s.finds || t in s.results)
    ensures Apart(s, s', t)
  {
    hide Apart;
    ByOne(s, s', u, t);
  }

  // ---------------------------------------------------------------- calls in the sub-maps

  lemma MissStep(sub: HA.State, p: HA.OpId, sub': HA.State, o: HA.OpId, k: Key)
    requires HA.StepBy(sub, p, sub') && Misses(sub, o, k)
    requires forall c :: 0 <= c < |sub.cells| ==> sub.cells[c] != HA.Holds(k)
    ensures Misses(sub', o, k)
  {
    HP.StepFootprint(sub, p, sub');
    hide HA.Path;
  }

  lemma CallMoves(s: State, s': State, f: Find, k: Key, m: nat, c: nat, n: nat)
    requires Inv(s) && Step(s, s') && StandsAt(s, m, c, k, n) && PcOK(s, f, k, m, c, n)
    ensures PcOK(s', f, k, m, c, n)
  {
    hide HA.StepBy, HP.Inv, Step, HP.Placed, HP.OnTrack, Misses;
    if f.pc.Trying? {
      var x, o := f.pc.i, f.pc.o;
      EveryStepMoves(s, s', x);
      if s'.subs[x] != s.subs[x] {
        var p: nat :| HA.StepBy(s.subs[x], p, s'.subs[x]);
        assert SubOK(s, x);
        if x == m {
          HP.TrackStep(s.subs[x], p, s'.subs[x], o, k, n, c);
        } else {
          NotThere(s, x, m, c, k);
          MissStep(s.subs[x], p, s'.subs[x], o, k);
        }
      }
    }
  }

  /** A key that is live in a later sub-map is not in an earlier one. */
  lemma NotThere(s: State, x: nat, m: nat, c: nat, k: Key)
    requires Inv(s) && x < m < |s.subs| && c < |s.subs[m].cells| && s.subs[m].cells[c] == HA.Holds(k)
    ensures forall d :: 0 <= d < |s.subs[x].cells| ==> s.subs[x].cells[d] != HA.Holds(k)
  {
    hide Inv;
    assert LiveIn(s, m, k);
    LaterMeansFull(s, m, k);
    assert !LiveIn(s, x, k);
  }

  /** A sub-map with a live key has been published. */
  lemma LiveIsPublished(s: State, m: nat, c: nat, k: Key)
    requires Inv(s) && m < |s.subs| && c < |s.subs[m].cells| && s.subs[m].cells[c] == HA.Holds(k)
    ensures m < s.numMaps
  {
    hide SubsOK, InsertsOK, ClaimsOK;
    assert m >= s.numMaps ==> Untouched(s.subs[m]);
  }

  // ---------------------------------------------------------------- the find's own steps

  lemma OwnStep(s: State, t: Tid, s': State, k: Key, m: nat, c: nat, n: nat)
    requires Inv(s) && FindStep(s, t, s') && StandsAt(s, m, c, k, n) && Seeks(s, t, k, m, c, n)
    ensures Seeks(s', t, k, m, c, n)
  {
    hide Inv, HP.Placed;
    LiveIsPublished(s, m, c, k);
    if DoTry(s, t, s') {
      TryStep(s, t, s', k, m, c, n);
    }
  }

  lemma TryStep(s: State, t: Tid, s': State, k: Key, m: nat, c: nat, n: nat)
    requires DoTry(s, t, s') && Seeks(s, t, k, m, c, n)
    ensures Seeks(s', t, k, m, c, n)
  {
    hide SubStep;
    var i, o, mid := TryIsSubStep(s, t, s');
    assert HP.OnTrack(s'.subs[i], o, k, n, c) && Misses(s'.subs[i], o, k);
  }

  lemma SeeksOn(s: State, s': State, t: Tid, k: Key, m: nat, c: nat, n: nat)
    requires Inv(s) && Step(s, s') && StandsAt(s, m, c, k, n) && Seeks(s, t, k, m, c, n)
    ensures Seeks(s', t, k, m, c, n)
  {
    hide Inv, Step, FindStep, PcOK, StandsAt;
    if FindStep(s, t, s') {
      OwnStep(s, t, s', k, m, c, n);
    } else {
      OthersApart(s, s', t);
      if t in s.finds { CallMoves(s, s', s.finds[t], k, m, c, n); }
    }
  }

  lemma StandsOn(s: State, s': State, m: nat, c: nat, k: Key, n: nat)
    requires Inv(s) && Step(s, s') && StandsAt(s, m, c, k, n)
    requires m < |s'.subs| && c < |s'.subs[m].cells| && s'.subs[m].cells[c] == HA.Holds(k)
    ensures StandsAt(s', m, c, k, n)
  {
    hide HA.StepBy, HP.Inv, Step, HP.Passed;
    EveryStepMoves(s, s', m);
    if s'.subs[m] != s.subs[m] {
      var p: nat :| HA.StepBy(s.subs[m], p, s'.subs[m]);
      assert SubOK(s, m);
      HP.StepInv(s.subs[m], p, s'.subs[m]);
      HP.StepFootprint(s.subs[m], p, s'.subs[m]);
      HP.PassedStable(s.subs[m].a, s.subs[m].cells, s'.subs[m].cells, k, n);
    }
  }

  // ---------------------------------------------------------------- whole runs

  ghost predicate LiveAt(s: State, m: nat, c: nat, k: Key) {
    m < |s.subs| && c < |s.subs[m].cells| && s.subs[m].cells[c] == HA.Holds(k)
  }

  lemma {:induction false} SeeksThroughout(run: seq<State>, i: nat, j: nat, t: Tid, k: Key, m: nat, c: nat, n: nat)
    requires IsRun(run) && i <= j < |run| && StandsAt(run[i], m, c, k, n) && Seeks(run[i], t, k, m, c, n)
    requires forall u :: i <= u <= j ==> LiveAt(run[u], m, c, k)
    ensures StandsAt(run[j], m, c, k, n) && Seeks(run[j], t, k, m, c, n)
  {
    hide Step, StandsAt, Seeks;
    if i < j {
      SeeksThroughout(run, i, j - 1, t, k, m, c, n);
      RunInv(run, j - 1);
      assert Step(run[j - 1], run[j]);
      SeeksOn(run[j - 1], run[j], t, k, m, c, n);
      assert LiveAt(run[j], m, c, k);
      StandsOn(run[j - 1], run[j], m, c, k, n);
    }
  }

  /** A find of a key that stays live in one sub-map from its beginning to its return finds it there. */
  lemma FindReturnsLive(run: seq<State>, i: nat, j: nat, t: Tid, k: Key, m: nat, c: nat)
    requires IsRun(run) && i <= j < |run| && t in run[i].finds && run[i].finds[t] == Find(k, 0, Try(0))
    requires t !in run[i].inserts && t !in run[i].results
    requires forall u :: i <= u <= j ==> LiveAt(run[u], m, c, k)
    ensures t in run[j].results ==> run[j].results[t] == FoundAt(m, c)
  {
    hide Step, HP.Inv;
    RunInv(run, i);
    var s := run[i];
    assert LiveAt(s, m, c, k) && SubOK(s, m);
    StandsSomewhere(s.subs[m], c, k);
    var n: nat :| HP.Placed(s.subs[m].a, s.subs[m].cells, c, n);
    SeeksThroughout(run, i, j, t, k, m, c, n);
  }

  lemma StandsSomewhere(sub: HA.State, c: nat, k: Key)
    requires HP.Inv(sub) && c < |sub.cells| && sub.cells[c] == HA.Holds(k)
    ensures sub.a.Valid() && exists n: nat :: HP.Placed(sub.a, sub.cells, c, n)
  {
    assert HP.Reachable(sub.a, sub.cells, c);
  }
}
