/** forEachElement while other threads insert, remove and split: the scan visits leaf after leaf and only
    remembers the last key it emitted. Between any two of its steps the list may change arbitrarily. */
module BSkipScan {
  import opened Options
  import opened BSkipNodes
  import opened BSkipShape
  import opened BSkipLevels
  import opened BSkipList
  import opened BSkipSkipper

  /** Keys a scan of slots [from, end) emits after last: live ones that are above the last emitted key. */
  function Emit<P>(n: Node<P>, from: nat, end: nat, last: int): (out: seq<int>)
    requires end <= |n.keys| == |n.entries| && forall s :: 0 <= s < |n.entries| ==> n.entries[s].Val?
    decreases end - from
  {
    if from >= end then []
    else if n.entries[from].dead || n.keys[from] <= last then Emit(n, from + 1, end, last)
    else [n.keys[from]] + Emit(n, from + 1, end, n.keys[from])
  }

  function LastOf(emitted: seq<int>, last: int): int {
    if emitted == [] then last else emitted[|emitted| - 1]
  }

  /** A stretch of emissions is ascending, starts above last, and misses no live key above last. */
  lemma {:induction false} EmitFacts<P>(n: Node<P>, from: nat, end: nat, last: int)
    requires IsLeaf(n) && end <= |n.keys| && Ascending(n.keys)
    ensures var out := Emit(n, from, end, last);
            && Ascending(out) && (forall k :: k in out ==> last < k)
            && (forall k :: k in out <==>
                exists s :: from <= s < end && n.keys[s] == k && last < k && !n.entries[s].dead)
    decreases end - from
  {
    if from < end {
      var rest := Emit(n, from + 1, end, if n.entries[from].dead || n.keys[from] <= last then last else n.keys[from]);
      if n.entries[from].dead || n.keys[from] <= last {
        EmitFacts(n, from + 1, end, last);
      } else {
        EmitFacts(n, from + 1, end, n.keys[from]);
        var out := Emit(n, from, end, last);
        AppendAscends([n.keys[from]], rest, n.keys[from]);
        forall k ensures k in out <==> exists s :: from <= s < end && n.keys[s] == k && last < k && !n.entries[s].dead {
          if k == n.keys[from] { assert out[0] == k; }
          assert k in rest <==>
              exists s :: from + 1 <= s < end && n.keys[s] == k && n.keys[from] < k && !n.entries[s].dead;
        }
      }
    }
  }

  /** The loop of one leaf visit, on a leaf that holds still. */
  method ScanLeafLive<P>(n: Node<P>, last: int, count: nat) returns (emitted: seq<int>, last': int, count': nat)
    requires IsLeaf(n)
    ensures emitted == Emit(n, 0, |n.keys|, last) && last' == LastOf(emitted, last) && count' == count + |emitted|
  {
    emitted, last', count' := [], last, count;
    for i := 0 to |n.keys|
      invariant emitted + Emit(n, i, |n.keys|, last') == Emit(n, 0, |n.keys|, last)
      invariant last' == LastOf(emitted, last) && count' == count + |emitted|
    {
      if !n.entries[i].dead && last' < n.keys[i] {
        assert emitted + Emit(n, i, |n.keys|, last') == (emitted + [n.keys[i]]) + Emit(n, i + 1, |n.keys|, n.keys[i]);
        emitted, last', count' := emitted + [n.keys[i]], n.keys[i], count' + 1;
      }
    }
  }

  // ---------------------------------------------------------------- the scan as a state machine

  /** One moment of the list. */
  datatype Snapshot<P> = Snapshot(c: Config, nodes: Arena<P>, headers: seq<nat>, chains: seq<seq<nat>>, vals: Vals<P>) {
    ghost predicate Valid() {
      TreeOK(c, nodes, headers, chains, vals)
    }
  }

  /** Where the scan is: about to visit a leaf, through with it, or done. Besides, the keys that were live
      at every moment since the start, and those that were live at some moment. */
  datatype Scan<P> = Scan(list: Snapshot<P>, leaf: Option<nat>, visited: bool, last: int, emitted: seq<int>,
                          whole: set<int>, seen: set<int>)

  ghost predicate Start<P>(s: Scan<P>) {
    && s.list.Valid() && s.leaf == Some(s.list.headers[0]) && !s.visited && s.last == s.list.c.lo && s.emitted == []
    && s.whole == LiveKeys(s.list.vals) && s.seen == LiveKeys(s.list.vals)
  }

  /** Any list mutation by anyone. */
  ghost predicate Mutate<P>(s: Scan<P>, t: Scan<P>) {
    && t.list.Valid() && t.list.c == s.list.c && Evolves(s.list.nodes, t.list.nodes)
    && t == s.(list := t.list, whole := s.whole * LiveKeys(t.list.vals), seen := s.seen + LiveKeys(t.list.vals))
  }

  /** An optimistic attempt that emits from a prefix of the slots before its validation fails, or all of a leaf. */
  ghost predicate Visit<P>(s: Scan<P>, t: Scan<P>, end: nat, complete: bool) {
    && s.leaf.Some? && !s.visited && s.leaf.value in s.list.nodes && IsLeaf(s.list.nodes[s.leaf.value])
    && var n := s.list.nodes[s.leaf.value];
       && end <= |n.keys| && (complete ==> end == |n.keys|)
       && var out := Emit(n, 0, end, s.last);
          t == s.(emitted := s.emitted + out, last := LastOf(out, s.last), visited := complete)
  }

  /** leaf = leaf->next_, loaded after the visit. */
  ghost predicate MoveOn<P>(s: Scan<P>, t: Scan<P>) {
    && s.leaf.Some? && s.visited && s.leaf.value in s.list.nodes
    && t == s.(leaf := s.list.nodes[s.leaf.value].next, visited := false)
  }

  ghost predicate Step<P>(s: Scan<P>, t: Scan<P>) {
    Mutate(s, t) || MoveOn(s, t) || exists end, complete :: Visit(s, t, end, complete)
  }

  ghost predicate IsRun<P>(run: seq<Scan<P>>) {
    |run| > 0 && Start(run[0]) && forall i :: 0 < i < |run| ==> Step(run[i - 1], run[i])
  }

  // ---------------------------------------------------------------- what every run keeps

  ghost predicate Inv<P>(s: Scan<P>) {
    && s.list.Valid() && s.list.c.lo <= s.last
    && s.whole <= LiveKeys(s.list.vals)
    && Ascending(s.emitted) && (forall k :: k in s.emitted ==> k <= s.last && k in s.seen)
    && LiveKeys(s.list.vals) <= s.seen
    && (forall k :: k in s.whole && k <= s.last ==> k in s.emitted)
    && match s.leaf
       case None => s.whole <= set k | k in s.emitted
       case Some(id) =>
         && id in s.list.nodes && s.list.nodes[id].level == 0 && |s.list.nodes[id].keys| > 0
         && EmittedBelow(s.whole, s.emitted, if s.visited then s.list.nodes[id].nextMin else s.list.nodes[id].keys[0])
  }

  ghost predicate EmittedBelow(whole: set<int>, emitted: seq<int>, bound: int) {
    forall k :: k in whole && k < bound ==> k in emitted
  }

  lemma StartInv<P>(s: Scan<P>)
    requires Start(s)
    ensures Inv(s)
  {
    hide TreeOK;
    HeaderFacts(s.list.c, s.list.nodes, s.list.headers, s.list.chains, s.list.vals, 0);
    LevelChain(s.list.c, s.list.nodes, s.list.headers, s.list.chains, s.list.vals, 0);
    LiveAboveLo(s.list);
  }

  lemma LiveAboveLo<P>(l: Snapshot<P>)
    requires l.Valid()
    ensures forall k :: k in LiveKeys(l.vals) ==> l.c.lo < k < l.c.hi
  {}

  lemma MutateInv<P>(s: Scan<P>, t: Scan<P>)
    requires Inv(s) && Mutate(s, t)
    ensures Inv(t)
  {
    hide TreeOK, LiveKeys, Ascending;
    if s.leaf.Some? {
      assert EvolvesNode(s.list.nodes[s.leaf.value], t.list.nodes[s.leaf.value]);
    }
  }

  lemma AppendAscends(xs: seq<int>, ys: seq<int>, last: int)
    requires Ascending(xs) && Ascending(ys) && (forall k :: k in xs ==> k <= last) && (forall k :: k in ys ==> last < k)
    ensures Ascending(xs + ys)
    ensures forall k :: k in xs + ys ==> k <= LastOf(ys, last)
    ensures last <= LastOf(ys, last)
  {
    var zs := xs + ys;
    forall i, j | 0 <= i < j < |zs| ensures zs[i] < zs[j] {
      if i < |xs| <= j { assert zs[i] in xs && zs[j] in ys; }
    }
    if ys != [] { assert ys[|ys| - 1] in ys; }
    forall k | k in xs + ys ensures k <= LastOf(ys, last) {
      if k in ys {
        var i :| 0 <= i < |ys| && ys[i] == k;
      }
    }
  }

  /** A live key of the leaf's range that is above last and at or below the new last was just emitted. */
  lemma VisitCatches<P>(s: Scan<P>, end: nat, k: int)
    requires Inv(s) && s.leaf.Some? && !s.visited && IsLeaf(s.list.nodes[s.leaf.value]) &&
        end <= |s.list.nodes[s.leaf.value].keys|
    requires k in s.whole && k !in s.emitted && k < s.list.nodes[s.leaf.value].nextMin
    requires end == |s.list.nodes[s.leaf.value].keys| || k <= LastOf(Emit(s.list.nodes[s.leaf.value], 0, end, s.last),
        s.last)
    ensures k in Emit(s.list.nodes[s.leaf.value], 0, end, s.last)
  {
    hide TreeOK, LiveKeys;
    var l, n := s.list, s.list.nodes[s.leaf.value];
    var out := Emit(n, 0, end, s.last);
    var i := PlaceOf(l.c, l.nodes, l.headers, l.chains, l.vals, s.leaf.value, 0);
    var j, t := LiveSlot(l.c, l.nodes, l.headers, l.chains, l.vals, k);
    KeysInRange(l.c, l.nodes, l.chains[0], 0, j, k);
    LocateKey(l.c, l.nodes, l.chains[0], 0, i, k);
    assert j == i;
    EmitFacts(n, 0, end, s.last);
    if out != [] {
      assert out[|out| - 1] in out;
      var u :| 0 <= u < end && n.keys[u] == LastOf(out, s.last);
      AscendingIndex(n.keys, t, u);
    }
  }

  lemma AscendingIndex(keys: seq<int>, t: nat, u: nat)
    requires Ascending(keys) && t < |keys| && u < |keys|
    ensures keys[t] <= keys[u] ==> t <= u
  {}

  lemma VisitInv<P>(s: Scan<P>, t: Scan<P>, end: nat, complete: bool)
    requires Inv(s) && Visit(s, t, end, complete)
    ensures Inv(t)
  {
    hide TreeOK, LiveKeys;
    var l, id := s.list, s.leaf.value;
    var n := l.nodes[id];
    var out := Emit(n, 0, end, s.last);
    var i := PlaceOf(l.c, l.nodes, l.headers, l.chains, l.vals, id, 0);
    EmitFacts(n, 0, end, s.last);
    AppendAscends(s.emitted, out, s.last);
    EmittedSeen(s, end);
    forall k | k in s.whole ensures k < n.nextMin && (complete || k <= t.last) ==> k in t.emitted {
      if k < n.nextMin && (complete || k <= t.last) && k !in s.emitted { VisitCatches(s, end, k); }
    }
    forall k | k in s.whole ensures k <= t.last ==> k in t.emitted {
      if out != [] {
        assert out[|out| - 1] in out;
        KeysInRange(l.c, l.nodes, l.chains[0], 0, i, t.last);
      }
    }
  }

  /** What is emitted is live at that moment. */
  lemma EmittedSeen<P>(s: Scan<P>, end: nat)
    requires Inv(s) && s.leaf.Some? && IsLeaf(s.list.nodes[s.leaf.value]) && end <= |s.list.nodes[s.leaf.value].keys|
    ensures forall k :: k in Emit(s.list.nodes[s.leaf.value], 0, end, s.last) ==>
        k in LiveKeys(s.list.vals) && k in s.seen
  {
    var l, n := s.list, s.list.nodes[s.leaf.value];
    assert forall k :: k in LiveKeys(l.vals) ==> k in s.seen;
    hide TreeOK;
    var i := PlaceOf(l.c, l.nodes, l.headers, l.chains, l.vals, s.leaf.value, 0);
    LeafFacts(l.c, l.nodes, l.headers, l.chains, l.vals, i);
    EmitFacts(n, 0, end, s.last);
  }

  lemma MoveOnInv<P>(s: Scan<P>, t: Scan<P>)
    requires Inv(s) && MoveOn(s, t)
    ensures Inv(t)
  {
    hide TreeOK, LiveKeys;
    var l, id := s.list, s.leaf.value;
    var i := PlaceOf(l.c, l.nodes, l.headers, l.chains, l.vals, id, 0);
    NextLeaf(l.c, l.nodes, l.headers, l.chains, l.vals, i);
    assert LinkOK(l.c, l.nodes, l.chains[0], i);
    LiveAboveLo(l);
    forall k | k in s.whole ensures k < l.c.hi {
      assert k in LiveKeys(l.vals);
    }
    if t.leaf.Some? { LevelOfNext(l, i); }
  }

  lemma LevelOfNext<P>(l: Snapshot<P>, i: nat)
    requires l.Valid() && i + 1 < |l.chains[0]|
    ensures l.chains[0][i + 1] in l.nodes && l.nodes[l.chains[0][i + 1]].level == 0
  {
    assert ChainOK(l.c, l.nodes, l.chains[0], 0);
  }

  lemma {:induction false} RunInv<P>(run: seq<Scan<P>>)
    requires IsRun(run)
    ensures Inv(run[|run| - 1])
  {
    hide Inv, Start, Mutate, MoveOn, Visit;
    if |run| == 1 {
      StartInv(run[0]);
    } else {
      var n := |run| - 1;
      RunInv(run[..n]);
      var s, t := run[n - 1], run[n];
      assert Step(s, t);
      if Mutate(s, t) {
        MutateInv(s, t);
      } else if MoveOn(s, t) {
        MoveOnInv(s, t);
      } else {
        var end, complete :| Visit(s, t, end, complete);
        VisitInv(s, t, end, complete);
      }
    }
  }

  /** The key was emitted, at one place only. */
  ghost predicate EmittedOnce(emitted: seq<int>, k: int) {
    exists i ::
      && 0 <= i < |emitted| && emitted[i] == k
      && (forall j :: 0 <= j < |emitted| && emitted[j] == k ==> j == i)
  }

  /** Every scan, however interleaved, emits in strictly ascending order and only keys that were live at some
      moment; when it ends it has emitted every key that was live at every moment, exactly once. */
  lemma ScanIsExact<P>(run: seq<Scan<P>>)
    requires IsRun(run)
    ensures var s := run[|run| - 1];
      && Ascending(s.emitted) && (forall k :: k in s.emitted ==> k in s.seen)
      && (s.leaf.None? ==> forall k :: k in s.whole ==> EmittedOnce(s.emitted, k))
  {
    RunInv(run);
    var s := run[|run| - 1];
    if s.leaf.None? {
      forall k | k in s.whole ensures EmittedOnce(s.emitted, k) {
        assert k in set k | k in s.emitted;
        var i :| 0 <= i < |s.emitted| && s.emitted[i] == k;
      }
    }
  }
}
