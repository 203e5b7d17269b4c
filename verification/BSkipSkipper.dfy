/** The Skipper of ConcurrentBSkipList: a forward cursor that keeps a leaf, a slot, the leaf's upper bound
    and a descent path from earlier calls. The list may change in between; the answers must not show it. */
module BSkipSkipper {
  import opened Options
  import opened BSkipNodes
  import opened BSkipShape
  import opened BSkipLevels
  import opened BSkipList

  /** What a scan looks for: any live key, the first at or above a target, the first above a key. */
  datatype Match = Any | AtLeast(target: int) | Greater(key: int) {
    predicate Accepts(k: int) {
      match this
      case Any => true
      case AtLeast(t) => t <= k
      case Greater(l) => l < k
    }
  }

  /** r is the least live key the scan accepts, or there is none. */
  ghost predicate IsNext(live: set<int>, m: Match, r: Option<int>) {
    match r
    case None => forall k :: k in live ==> !m.Accepts(k)
    case Some(k) => k in live && m.Accepts(k) && forall k' :: k' in live && m.Accepts(k') ==> k <= k'
  }

  // ---------------------------------------------------------------- what a cursor may rely on

  /** A cached node still is a node of its level and still starts at or below the bound. */
  ghost predicate StartsBelow<P>(a: Arena<P>, id: nat, l: nat, bound: int) {
    id in a && |a[id].keys| > 0 && a[id].level == l && a[id].keys[0] <= bound
  }

  ghost predicate PathOK<P>(c: Config, a: Arena<P>, path: seq<Option<nat>>, bound: int) {
    && |path| == c.maxHeight > 0 && path[0] == None
    && forall l :: 1 <= l < |path| && path[l].Some? ==> StartsBelow(a, path[l].value, l, bound)
  }

  /** All the cursor knows: its leaf starts at or below its last key, every slot up to its own holds a key
      at or below its last key (or has moved to a later leaf), and its path nodes start at or below it. */
  ghost predicate CursorOK<P>(c: Config, a: Arena<P>, leaf: Option<nat>, slot: nat, last: int, path: seq<Option<nat>>) {
    && PathOK(c, a, path, last)
    && (leaf.Some? ==> StartsBelow(a, leaf.value, 0, last) && SlotBound(a[leaf.value], slot) <= last)
    && c.lo <= last
  }

  /** No mutation of the list can break that. */
  lemma CursorSurvives<P>(c: Config, a: Arena<P>, b: Arena<P>, leaf: Option<nat>, slot: nat, last: int,
      path: seq<Option<nat>>)
    requires CursorOK(c, a, leaf, slot, last, path) && Evolves(a, b)
    ensures CursorOK(c, b, leaf, slot, last, path)
  {
    if leaf.Some? {
      assert EvolvesNode(a[leaf.value], b[leaf.value]);
      assert SlotBound(b[leaf.value], slot) <= SlotBound(a[leaf.value], slot);
    }
    forall l | 1 <= l < |path| && path[l].Some? ensures StartsBelow(b, path[l].value, l, last) {
      assert StartsBelow(a, path[l].value, l, last);
    }
  }

  /** Nor can any number of them. */
  lemma {:induction false} CursorSurvivesRun<P>(c: Config, run: seq<Arena<P>>, leaf: Option<nat>, slot: nat,
      last: int, path: seq<Option<nat>>)
    requires |run| > 0 && CursorOK(c, run[0], leaf, slot, last, path)
    requires forall i :: 0 < i < |run| ==> Evolves(run[i - 1], run[i])
    ensures CursorOK(c, run[|run| - 1], leaf, slot, last, path)
  {
    if |run| > 1 {
      var n := |run| - 1;
      assert Evolves(run[n - 1], run[n]);
      CursorSurvivesRun(c, run[..n], leaf, slot, last, path);
      CursorSurvives(c, run[n - 1], run[n], leaf, slot, last, path);
    }
  }

  /** So a cursor that was good before any list operations is good after them. */
  twostate lemma SkipperSurvives<P>(s: Skipper<P>)
    requires old(s.Valid()) && unchanged(s) && s.list.Valid() && Evolves(old(s.list.nodes), s.list.nodes)
    ensures s.Valid()
  {
    CursorSurvives(s.list.c, old(s.list.nodes), s.list.nodes, s.currentLeaf, s.leafSlot, s.lastKey, s.cachedPath);
  }

  // ---------------------------------------------------------------- scanning leaves

  /** Slot s of n is nothing the scan would stop at. */
  ghost predicate Passed<P>(n: Node<P>, s: nat, m: Match)
    requires s < |n.keys| == |n.entries| && n.entries[s].Val?
  {
    n.entries[s].dead || !m.Accepts(n.keys[s])
  }

  ghost predicate IsLeaf<P>(n: Node<P>) {
    |n.keys| == |n.entries| && forall s :: 0 <= s < |n.entries| ==> n.entries[s].Val?
  }

  ghost predicate PassedAll<P>(n: Node<P>, from: nat, to: nat, m: Match)
    requires IsLeaf(n) && to <= |n.keys|
  {
    forall s :: from <= s < to ==> Passed(n, s, m)
  }

  method ScanLeaf<P>(n: Node<P>, start: nat, m: Match) returns (hit: Option<nat>)
    requires IsLeaf(n)
    ensures hit.Some? ==> start <= hit.value < |n.keys| && !Passed(n, hit.value, m) && PassedAll(n, start, hit.value, m)
    ensures hit.None? ==> PassedAll(n, start, |n.keys|, m)
  {
    var i := start;
    while i < |n.keys|
      invariant start <= i && PassedAll(n, start, if i <= |n.keys| then i else |n.keys|, m)
    {
      if !n.entries[i].dead && m.Accepts(n.keys[i]) { return Some(i); }
      i := i + 1;
    }
    return None;
  }

  /** A failed validation costs an attempt; only a hit that validates is used. */
  method ScanLeafOptimistic<P>(n: Node<P>, start: nat, m: Match, attempts: nat) returns (hit: Option<nat>)
    requires IsLeaf(n)
    ensures hit.Some? ==> start <= hit.value < |n.keys| && !Passed(n, hit.value, m) && PassedAll(n, start, hit.value, m)
  {
    for retry := 0 to attempts {
      var valid: bool := *;
      hit := ScanLeaf(n, start, m);
      if hit.Some? && valid { return hit; }
    }
    return None;
  }

  /** Leaves before i hold nothing the scan would stop at. */
  ghost predicate NothingBefore<P>(a: Arena<P>, ids: seq<nat>, i: nat, m: Match)
    requires i <= |ids|
  {
    forall j :: 0 <= j < i ==> ids[j] in a && IsLeaf(a[ids[j]]) && PassedAll(a[ids[j]], 0, |a[ids[j]].keys|, m)
  }

  lemma LeafFacts<P>(c: Config, a: Arena<P>, headers: seq<nat>, chains: seq<seq<nat>>, vals: Vals<P>, i: nat)
    requires TreeOK(c, a, headers, chains, vals) && i < |chains[0]|
    ensures chains[0][i] in a && NodeOK(c, a[chains[0][i]], 0) && IsLeaf(a[chains[0][i]]) &&
        LeafNodeMatch(c, a[chains[0][i]], vals)
    ensures c.lo <= a[chains[0][i]].keys[0]
  {
    assert ChainOK(c, a, chains[0], 0);
    if i > 0 {
      ChainOrder(c, a, chains[0], 0, 0, i);
      FirstIsLeast(a[chains[0][0]].keys, 0);
    }
  }

  /** A live key sits in some leaf, in a slot without tombstone. */
  lemma LiveSlot<P>(c: Config, a: Arena<P>, headers: seq<nat>, chains: seq<seq<nat>>, vals: Vals<P>,
      k: int) returns (j: nat, s: nat)
    requires TreeOK(c, a, headers, chains, vals) && k in LiveKeys(vals)
    ensures j < |chains[0]| && chains[0][j] in a && s < |a[chains[0][j]].keys| && a[chains[0][j]].keys[s] == k
    ensures s < |a[chains[0][j]].entries| && a[chains[0][j]].entries[s].Val? && !a[chains[0][j]].entries[s].dead
  {
    assert KeysAre(a, chains[0], LevelSet(c, vals.Keys, 0));
    assert HasKey(a, chains[0], k) <==> k in LevelSet(c, vals.Keys, 0);
    j :| 0 <= j < |chains[0]| && chains[0][j] in a && k in a[chains[0][j]].keys;
    s :| 0 <= s < |a[chains[0][j]].keys| && a[chains[0][j]].keys[s] == k;
    assert LeafNodeMatch(c, a[chains[0][j]], vals);
  }

  /** The first accepted slot, with nothing accepted before it, holds the least accepted live key. */
  lemma HitIsNext<P>(c: Config, a: Arena<P>, headers: seq<nat>, chains: seq<seq<nat>>, vals: Vals<P>, i: nat,
      slot: nat, m: Match)
    requires TreeOK(c, a, headers, chains, vals) && i < |chains[0]| && NothingBefore(a, chains[0], i, m)
    requires chains[0][i] in a && IsLeaf(a[chains[0][i]]) && slot < |a[chains[0][i]].keys| &&
        PassedAll(a[chains[0][i]], 0, slot, m)
    requires !Passed(a[chains[0][i]], slot, m)
    ensures var n := a[chains[0][i]];
            && IsNext(LiveKeys(vals), m, Some(n.keys[slot])) && n.keys[slot] in vals &&
                vals[n.keys[slot]] == n.entries[slot]
  {
    hide TreeOK;
    HeaderFacts(c, a, headers, chains, vals, 0);
    var n := a[chains[0][i]];
    var k := n.keys[slot];
    LeafFacts(c, a, headers, chains, vals, i);
    forall k' | k' in LiveKeys(vals) ensures m.Accepts(k') ==> k <= k' {
      var j, s := LiveSlot(c, a, headers, chains, vals, k');
      LeafFacts(c, a, headers, chains, vals, j);
      if j < i {
        assert PassedAll(a[chains[0][j]], 0, |a[chains[0][j]].keys|, m);
        assert Passed(a[chains[0][j]], s, m);
      } else if j == i {
        if s < slot { assert Passed(n, s, m); }
        else { LeafOrder(n.keys, slot, s); }
      } else {
        LeafAscends(c, a, headers, chains, vals, i, slot, j, s);
      }
    }
  }

  lemma LeafOrder(keys: seq<int>, s: nat, t: nat)
    requires Ascending(keys) && s <= t < |keys|
    ensures keys[s] <= keys[t]
  {}

  lemma LeafAscends<P>(c: Config, a: Arena<P>, headers: seq<nat>, chains: seq<seq<nat>>, vals: Vals<P>, i: nat,
      s: nat, j: nat, t: nat)
    requires TreeOK(c, a, headers, chains, vals) && i < j < |chains[0]| && chains[0][i] in a && chains[0][j] in a
    requires s < |a[chains[0][i]].keys| && t < |a[chains[0][j]].keys|
    ensures a[chains[0][i]].keys[s] < a[chains[0][i]].nextMin <= a[chains[0][j]].keys[t]
  {
    assert ChainOK(c, a, chains[0], 0);
    FirstIsLeast(a[chains[0][i]].keys, s);
    FirstIsLeast(a[chains[0][j]].keys, t);
    ChainOrder(c, a, chains[0], 0, i, j);
  }

  lemma MissIsNone<P>(c: Config, a: Arena<P>, headers: seq<nat>, chains: seq<seq<nat>>, vals: Vals<P>, m: Match)
    requires TreeOK(c, a, headers, chains, vals) && NothingBefore(a, chains[0], |chains[0]|, m)
    ensures IsNext(LiveKeys(vals), m, None)
  {
    forall k | k in LiveKeys(vals) ensures !m.Accepts(k) {
      var j, s := LiveSlot(c, a, headers, chains, vals, k);
      assert PassedAll(a[chains[0][j]], 0, |a[chains[0][j]].keys|, m);
      assert Passed(a[chains[0][j]], s, m);
    }
  }

  /** The bound below which a scan accepts nothing. */
  ghost predicate RejectsBelow(m: Match, bound: int) {
    match m
    case Any => false
    case AtLeast(t) => bound <= t
    case Greater(l) => bound <= l
  }

  /** Leaves left of one that starts at or below the bound hold nothing of interest. */
  lemma NothingLeft<P>(c: Config, a: Arena<P>, headers: seq<nat>, chains: seq<seq<nat>>, vals: Vals<P>, i: nat,
      m: Match, bound: int)
    requires TreeOK(c, a, headers, chains, vals) && i < |chains[0]| && chains[0][i] in a && |a[chains[0][i]].keys| > 0
    requires a[chains[0][i]].keys[0] <= bound && RejectsBelow(m, bound)
    ensures NothingBefore(a, chains[0], i, m)
  {
    hide TreeOK;
    HeaderFacts(c, a, headers, chains, vals, 0);
    forall j | 0 <= j < i
      ensures chains[0][j] in a && IsLeaf(a[chains[0][j]]) && PassedAll(a[chains[0][j]], 0, |a[chains[0][j]].keys|, m)
    {
      LeafFacts(c, a, headers, chains, vals, j);
      forall s | 0 <= s < |a[chains[0][j]].keys| ensures Passed(a[chains[0][j]], s, m) {
        LeafAscends(c, a, headers, chains, vals, j, s, i, 0);
      }
    }
  }

  /** Slots up to the cursor's hold nothing above its last key. */
  lemma NothingUpToSlot<P>(c: Config, n: Node<P>, slot: nat, last: int, m: Match)
    requires NodeOK(c, n, 0) && IsLeaf(n) && SlotBound(n, slot) <= last
    requires forall k :: m.Accepts(k) ==> last < k
    ensures PassedAll(n, 0, if slot < |n.keys| then slot + 1 else |n.keys|, m)
  {
    forall s | 0 <= s < (if slot < |n.keys| then slot + 1 else |n.keys|) ensures Passed(n, s, m) {
      if slot < |n.keys| {
        LeafOrder(n.keys, s, slot);
      } else {
        FirstIsLeast(n.keys, s);
      }
    }
  }

  /** A node of a level stands somewhere in its chain. */
  lemma PlaceOf<P>(c: Config, a: Arena<P>, headers: seq<nat>, chains: seq<seq<nat>>, vals: Vals<P>, id: nat,
      l: nat) returns (i: nat)
    requires TreeOK(c, a, headers, chains, vals) && id in a && a[id].level == l
    ensures l < |chains| && i < |chains[l]| && chains[l][i] == id && ChainOK(c, a, chains[l], l)
  {
    assert InLevel(chains, a[id].level, id);
    i :| 0 <= i < |chains[l]| && chains[l][i] == id;
  }

  /** Everything the scan accepts is at or above the bound. */
  ghost predicate AcceptsFrom(c: Config, m: Match, bound: int) {
    forall k :: c.lo <= k && m.Accepts(k) ==> bound <= k
  }

  // ---------------------------------------------------------------- the cursor

  datatype Probe = Hit(key: int) | Miss | FallbackToLocked

  class Skipper<P> {
    const list: BSkipList<P>
    const optimistic: bool                 // Traits::kOptimistic
    const attempts: nat                    // kSeqlockRetries
    const olcAttempts: nat                 // kOlcAttempts
    var currentLeaf: Option<nat>           // None: exhausted
    var leafSlot: nat
    var cachedPath: seq<Option<nat>>
    var cachedHeight: nat
    var cachedNextMinKey: int
    var cachedNextMinKeyValid: bool
    var lastKey: int
    var lastPayload: Option<P>

    ghost predicate Valid()
      reads this, list
    {
      && list.Valid() && 1 <= cachedHeight <= list.c.maxHeight
      && CursorOK(list.c, list.nodes, currentLeaf, leafSlot, lastKey, cachedPath)
    }

    /** The answer of a call: the cursor stands on the least accepted live key, or is exhausted. */
    ghost predicate Answers(m: Match, r: Option<int>)
      reads this, list
    {
      && IsNext(LiveKeys(list.vals), m, r)
      && (match r
          case None => currentLeaf == None
          case Some(k) =>
            && currentLeaf.Some? && lastKey == k
            && k in list.vals && list.vals[k].Val? && lastPayload == Some(list.vals[k].payload))
    }

    constructor (list: BSkipList<P>, optimistic: bool, attempts: nat, olcAttempts: nat)
      requires list.Valid()
      ensures this.list == list && Valid() && exists r :: Answers(Any, r)
    {
      this.list, this.optimistic, this.attempts, this.olcAttempts := list, optimistic, attempts, olcAttempts;
      hide TreeOK, PathOK, IsNext;
      HeaderFacts(list.c, list.nodes, list.headers, list.chains, list.vals, 0);
      var headers := list.headers;
      currentLeaf, leafSlot, cachedHeight := Some(headers[0]), 0, |headers|;
      cachedPath := seq(list.c.maxHeight, l requires 0 <= l => if 1 <= l < |headers| then Some(headers[l]) else None);
      cachedNextMinKey, cachedNextMinKeyValid := 0, false;
      lastKey, lastPayload := list.c.lo, None;
      new;
      HeaderPath(list.c, list.nodes, list.headers, list.chains, list.vals, cachedPath);
      var r := InitCursor(list.headers[0]);
    }

    method InitCursor(leaf: nat) returns (r: Option<int>)
      requires list.Valid() && 1 <= cachedHeight <= list.c.maxHeight &&
          PathOK(list.c, list.nodes, cachedPath, list.c.lo)
      requires |list.chains| > 0 && |list.chains[0]| > 0 && leaf == list.chains[0][0] && lastKey == list.c.lo
      modifies this
      ensures Valid() && Answers(Any, r) && unchanged(`cachedHeight)
    {
      hide TreeOK, PathOK, IsNext, NodeOK;
      LeafFacts(list.c, list.nodes, list.headers, list.chains, list.vals, 0);
      LeafKeysAboveLo(list.c, list.nodes, list.headers, list.chains, list.vals, 0);
      if optimistic {
        var hit := ScanLeafOptimistic(list.nodes[leaf], 0, Any, attempts);
        if hit.Some? {
          HitIsNext(list.c, list.nodes, list.headers, list.chains, list.vals, 0, hit.value, Any);
          CacheLeafHit(leaf, hit.value, 0, list.c.lo);
          return Some(lastKey);
        }
      }
      r := ScanLockedLeafChain(leaf, 0, Any, 0, list.c.lo);
    }

    /** The single point where a hit becomes the state of the cursor. */
    method CacheLeafHit(leaf: nat, slot: nat, ghost i: nat, ghost bound: int)
      requires list.Valid() && |list.chains| > 0 && i < |list.chains[0]| && leaf == list.chains[0][i] &&
          leaf in list.nodes
      requires IsLeaf(list.nodes[leaf]) && slot < |list.nodes[leaf].keys| && bound <= list.nodes[leaf].keys[slot]
      requires PathOK(list.c, list.nodes, cachedPath, bound) && 1 <= cachedHeight <= list.c.maxHeight
      modifies this`currentLeaf, this`leafSlot, this`cachedNextMinKey, this`cachedNextMinKeyValid, this`lastKey,
          this`lastPayload
      ensures Valid() && currentLeaf == Some(leaf) && lastKey == list.nodes[leaf].keys[slot]
      ensures lastPayload == Some(list.nodes[leaf].entries[slot].payload)
    {
      hide TreeOK;
      LeafFacts(list.c, list.nodes, list.headers, list.chains, list.vals, i);
      var n := list.nodes[leaf];
      FirstIsLeast(n.keys, slot);
      currentLeaf, leafSlot := Some(leaf), slot;
      cachedNextMinKey, cachedNextMinKeyValid := n.nextMin, true;
      lastKey, lastPayload := n.keys[slot], Some(n.entries[slot].payload);
    }

    method MarkExhausted()
      requires |cachedPath| > 0
      modifies this`currentLeaf, this`leafSlot, this`cachedPath, this`cachedNextMinKeyValid
      ensures currentLeaf == None && |cachedPath| == |old(cachedPath)| && cachedPath[0] == old(cachedPath)[0]
      ensures forall l :: 1 <= l < |cachedPath| ==> cachedPath[l] == None
    {
      currentLeaf, leafSlot, cachedNextMinKeyValid := None, 0, false;
      for level := 1 to |cachedPath|
        invariant currentLeaf == None && |cachedPath| == |old(cachedPath)| && cachedPath[0] == old(cachedPath)[0]
        invariant forall l :: 1 <= l < level ==> cachedPath[l] == None
      {
        cachedPath := cachedPath[level := None];
      }
    }

    /** Walks the leaves from startSlot of the given one to the first accepted slot or the end. */
    method ScanLockedLeafChain(start: nat, startSlot: nat, m: Match, ghost i0: nat,
        ghost bound: int) returns (r: Option<int>)
      requires list.Valid() && |list.chains| > 0 && i0 < |list.chains[0]| && start == list.chains[0][i0]
      requires start in list.nodes && IsLeaf(list.nodes[start]) && NothingBefore(list.nodes, list.chains[0], i0, m)
      requires PassedAll(list.nodes[start], 0, if startSlot < |list.nodes[start].keys| then startSlot
          else |list.nodes[start].keys|, m)
      requires PathOK(list.c, list.nodes, cachedPath, bound) && AcceptsFrom(list.c, m, bound) &&
          1 <= cachedHeight <= list.c.maxHeight
      requires list.c.lo <= lastKey
      modifies this
      ensures Valid() && Answers(m, r) && unchanged(`cachedHeight)
    {
      hide TreeOK, PathOK, IsNext, Evolves, NodeOK;
      var leaf: nat, slot: nat := start, startSlot;
      ghost var i: nat := i0;
      while true
        invariant i < |list.chains[0]| && leaf == list.chains[0][i] && leaf in list.nodes && IsLeaf(list.nodes[leaf])
        invariant NothingBefore(list.nodes, list.chains[0], i, m)
        invariant PassedAll(list.nodes[leaf], 0, if slot < |list.nodes[leaf].keys| then slot
            else |list.nodes[leaf].keys|, m)
        invariant PathOK(list.c, list.nodes, cachedPath, bound) && unchanged(this)
        decreases |list.chains[0]| - i
      {
        var hit := ScanLeaf(list.nodes[leaf], slot, m);
        LeafKeysAboveLo(list.c, list.nodes, list.headers, list.chains, list.vals, i);
        if hit.Some? {
          HitIsNext(list.c, list.nodes, list.headers, list.chains, list.vals, i, hit.value, m);
          CacheLeafHit(leaf, hit.value, i, bound);
          return Some(lastKey);
        }
        NothingBeforeNext(list.c, list.nodes, list.headers, list.chains, list.vals, i, m);
        match list.nodes[leaf].next
        case None =>
          MissIsNone(list.c, list.nodes, list.headers, list.chains, list.vals, m);
          PathLength(list.c, list.nodes, cachedPath, bound);
          MarkExhausted();
          EmptyPath(list.c, list.nodes, cachedPath, lastKey);
          return None;
        case Some(next) =>
          leaf, i, slot := next, i + 1, 0;
      }
    }

    method AdvanceLocked() returns (r: Option<int>)
      requires Valid() && currentLeaf.Some?
      modifies this
      ensures Valid() && Answers(Greater(old(lastKey)), r)
    {
      hide TreeOK, PathOK, IsNext;
      var leaf := currentLeaf.value;
      ghost var i := AtCursor(Greater(lastKey));
      r := ScanLockedLeafChain(leaf, leafSlot + 1, Greater(lastKey), i, lastKey);
    }

    /** Where the cursor stands in the leaf chain, and what lies behind it. */
    lemma AtCursor(m: Match) returns (i: nat)
      requires Valid() && currentLeaf.Some? && RejectsBelow(m, lastKey) && forall k :: m.Accepts(k) ==> lastKey < k
      ensures |list.chains| > 0 && i < |list.chains[0]| && currentLeaf == Some(list.chains[0][i]) &&
          currentLeaf.value in list.nodes
      ensures NodeOK(list.c, list.nodes[currentLeaf.value], 0)
      ensures IsLeaf(list.nodes[currentLeaf.value]) && NothingBefore(list.nodes, list.chains[0], i, m)
      ensures var n := list.nodes[currentLeaf.value];
              PassedAll(n, 0, if leafSlot + 1 < |n.keys| then leafSlot + 1 else |n.keys|, m)
    {
      hide TreeOK, PathOK;
      i := PlaceOf(list.c, list.nodes, list.headers, list.chains, list.vals, currentLeaf.value, 0);
      LeafFacts(list.c, list.nodes, list.headers, list.chains, list.vals, i);
      NothingLeft(list.c, list.nodes, list.headers, list.chains, list.vals, i, m, lastKey);
      NothingUpToSlot(list.c, list.nodes[currentLeaf.value], leafSlot, lastKey, m);
    }

    /** The least live key above the last one. */
    method Advance() returns (r: Option<int>)
      requires Valid()
      modifies this
      ensures Valid()
      ensures old(currentLeaf).None? ==> r == None && currentLeaf == None
      ensures old(currentLeaf).Some? ==> Answers(Greater(old(lastKey)), r)
    {
      hide TreeOK, PathOK, IsNext;
      if currentLeaf.None? { return None; }
      if optimistic {
        var leaf := currentLeaf.value;
        ghost var i := AtCursor(Greater(lastKey));
        var hit := ScanLeafOptimistic(list.nodes[leaf], leafSlot + 1, Any, 1);
        if hit.Some? && lastKey < list.nodes[leaf].keys[hit.value] {
          AnyFindsGreater(list.nodes[leaf], leafSlot + 1, hit.value, lastKey);
          HitIsNext(list.c, list.nodes, list.headers, list.chains, list.vals, i, hit.value, Greater(lastKey));
          CacheLeafHit(leaf, hit.value, i, lastKey);
          return Some(lastKey);
        }
      }
      r := AdvanceLocked();
    }

    /** Step 5 of skipTo: descend from the top with locks, remembering the path, then walk the leaves. */
    method SkipToLockedFromRoot(target: int) returns (r: Option<int>)
      requires Valid() && lastKey < target
      modifies this
      ensures Valid() && Answers(AtLeast(target), r)
    {
      hide TreeOK, PathOK, IsNext;
      HeaderFacts(list.c, list.nodes, list.headers, list.chains, list.vals, |list.chains| - 1);
      LevelChain(list.c, list.nodes, list.headers, list.chains, list.vals, |list.chains| - 1);
      WeakenPath(list.c, list.nodes, cachedPath, lastKey, target);
      var level: nat := |list.headers| - 1;
      var current := list.headers[level];
      while level > 0
        invariant level < |list.chains| && StartsBelow(list.nodes, current, level, target)
        invariant PathOK(list.c, list.nodes, cachedPath, target)
        invariant unchanged(`lastKey) && unchanged(`cachedHeight)
      {
        ghost var i := PlaceOf(list.c, list.nodes, list.headers, list.chains, list.vals, current, level);
        current, i := list.CrabRight(current, target, level, i);
        var slot, found := FindSlot(list.nodes[current], target);
        DescendStep(list.c, list.nodes, list.headers, list.chains, list.vals, level, i, slot, target);
        SetPath(list.c, list.nodes, cachedPath, target, level, current);
        cachedPath := cachedPath[level := Some(current)];
        current, level := list.nodes[current].entries[slot].id, level - 1;
      }
      ghost var i := PlaceOf(list.c, list.nodes, list.headers, list.chains, list.vals, current, level);
      current, i := list.CrabRight(current, target, level, i);
      LeafFacts(list.c, list.nodes, list.headers, list.chains, list.vals, i);
      NothingLeft(list.c, list.nodes, list.headers, list.chains, list.vals, i, AtLeast(target), target);
      r := ScanLockedLeafChain(current, 0, AtLeast(target), i, target);
    }

    /** One lock-free descent from a cached node, or from the top when there is none at that level; it may
        give up at any node. */
    method OptimisticDescendOnce(target: int, startLevel: nat) returns (leaf: Option<nat>, path: seq<Option<nat>>)
      requires Valid() && lastKey < target && startLevel < list.c.maxHeight
      ensures PathOK(list.c, list.nodes, path, target)
      ensures leaf.Some? ==> StartsBelow(list.nodes, leaf.value, 0, target)
    {
      hide TreeOK, PathOK;
      PathLength(list.c, list.nodes, cachedPath, lastKey);
      PathNode(list.c, list.nodes, cachedPath, lastKey, startLevel);
      path := seq(list.c.maxHeight, l => None);
      EmptyPath(list.c, list.nodes, path, target);
      var level: nat, current: nat;
      if cachedPath[startLevel].Some? {
        level, current := startLevel, cachedPath[startLevel].value;
      } else {
        HeaderFacts(list.c, list.nodes, list.headers, list.chains, list.vals, |list.chains| - 1);
        LevelChain(list.c, list.nodes, list.headers, list.chains, list.vals, |list.chains| - 1);
        level, current := |list.headers| - 1, list.headers[|list.headers| - 1];
      }
      while level > 0
        invariant level < list.c.maxHeight && StartsBelow(list.nodes, current, level, target)
        invariant PathOK(list.c, list.nodes, path, target)
      {
        ghost var i := PlaceOf(list.c, list.nodes, list.headers, list.chains, list.vals, current, level);
        current, i := list.CrabRight(current, target, level, i);
        var slot, found := FindSlot(list.nodes[current], target);
        var validated: bool := *;
        if !validated { return None, path; }
        DescendStep(list.c, list.nodes, list.headers, list.chains, list.vals, level, i, slot, target);
        SetPath(list.c, list.nodes, path, target, level, current);
        path := path[level := Some(current)];
        current, level := list.nodes[current].entries[slot].id, level - 1;
      }
      return Some(current), path;
    }

    /** Which level to start from; purely advisory. */
    method HighestValidCacheLevel(target: int) returns (startLevel: nat)
      requires Valid()
      ensures startLevel < list.c.maxHeight
    {
      hide TreeOK;
      startLevel := 0;
      for level := 1 to cachedHeight
        invariant startLevel < level || startLevel == 0
      {
        if cachedPath[level].None? { return; }
        assert StartsBelow(list.nodes, cachedPath[level].value, level, lastKey);
        var versionValid: bool, loaded: bool, nextMinKey: int := *, *, *;
        if versionValid {
          startLevel := level;
          if target < nextMinKey { return; }
        } else if loaded {
          startLevel := level;
          if target < list.nodes[cachedPath[level].value].nextMin { return; }
        }
      }
    }

    /** Step 4 of skipTo. */
    method OptimisticDescend(target: int, start: nat) returns (r: Option<int>)
      requires Valid() && lastKey < target && start < list.c.maxHeight
      modifies this
      ensures Valid() && Answers(AtLeast(target), r)
    {
      hide TreeOK, PathOK, IsNext;
      var startLevel: nat := start;
      for retry := 0 to olcAttempts
        invariant Valid() && unchanged(this) && startLevel < list.c.maxHeight
      {
        var leaf, path := OptimisticDescendOnce(target, startLevel);
        startLevel := list.c.maxHeight - 1;
        if leaf.Some? {
          ghost var i := PlaceOf(list.c, list.nodes, list.headers, list.chains, list.vals, leaf.value, 0);
          LeafFacts(list.c, list.nodes, list.headers, list.chains, list.vals, i);
          var hit := ScanLeafOptimistic(list.nodes[leaf.value], 0, AtLeast(target), attempts + 1);
          var pathValid: bool := *;
          if hit.Some? && pathValid {
            NothingLeft(list.c, list.nodes, list.headers, list.chains, list.vals, i, AtLeast(target), target);
            HitIsNext(list.c, list.nodes, list.headers, list.chains, list.vals, i, hit.value, AtLeast(target));
            WeakenPath(list.c, list.nodes, cachedPath, lastKey, target);
            MergePath(list.c, list.nodes, cachedPath, path, target);
            cachedPath := Merge(cachedPath, path);
            CacheLeafHit(leaf.value, hit.value, i, target);
            return Some(lastKey);
          }
        }
      }
      r := SkipToLockedFromRoot(target);
    }

    /** Step 3 of skipTo: only the immediate right sibling is looked at. */
    method ScanAdjacentLeaf(leaf: nat, target: int) returns (probe: Probe)
      requires Valid() && currentLeaf == Some(leaf) && lastKey < target
      modifies this
      ensures Valid()
      ensures probe.Hit? ==> Answers(AtLeast(target), Some(probe.key))
      ensures !probe.Hit? ==> unchanged(this)
    {
      hide TreeOK, PathOK, IsNext;
      var currentValid: bool, nextValid: bool, stillNext: bool := *, *, *;
      if !currentValid { return FallbackToLocked; }
      if target < list.nodes[leaf].nextMin { return Miss; }
      ghost var i := PlaceOf(list.c, list.nodes, list.headers, list.chains, list.vals, leaf, 0);
      NextLeaf(list.c, list.nodes, list.headers, list.chains, list.vals, i);
      if list.nodes[leaf].next.None? || !nextValid || !stillNext { return FallbackToLocked; }
      var next := list.nodes[leaf].next.value;
      if target >= list.nodes[next].nextMin { return Miss; }
      var hit := ScanLeaf(list.nodes[next], 0, AtLeast(target));
      if hit.None? { return Miss; }
      NothingLeft(list.c, list.nodes, list.headers, list.chains, list.vals, i + 1, AtLeast(target), target);
      HitIsNext(list.c, list.nodes, list.headers, list.chains, list.vals, i + 1, hit.value, AtLeast(target));
      CacheLeafHit(next, hit.value, i + 1, lastKey);
      return Hit(lastKey);
    }

    method ScanNextLeafOrDescend(leaf: nat, target: int) returns (r: Option<int>)
      requires Valid() && currentLeaf == Some(leaf) && lastKey < target
      modifies this
      ensures Valid() && Answers(AtLeast(target), r)
    {
      hide TreeOK, PathOK, IsNext;
      var probe := ScanAdjacentLeaf(leaf, target);
      match probe
      case Hit(k) => r := Some(k);
      case FallbackToLocked => r := SkipToLockedFromRoot(target);
      case Miss =>
        var level := HighestValidCacheLevel(target);
        r := OptimisticDescend(target, level);
    }

    /** Steps 1 and 2 of skipTo: scan on from the cursor's slot, or from the slot itself. */
    method ScanCurrentLeaf(leaf: nat, target: int, start: nat, tries: nat) returns (r: Option<int>)
      requires Valid() && currentLeaf == Some(leaf) && lastKey < target && leafSlot <= start <= leafSlot + 1
      modifies this
      ensures Valid()
      ensures r.Some? ==> Answers(AtLeast(target), r)
      ensures r.None? ==> unchanged(this)
    {
      hide TreeOK, PathOK, IsNext;
      ghost var i := AtCursor(AtLeast(target));
      var hit := ScanLeafOptimistic(list.nodes[leaf], start, AtLeast(target), tries);
      if hit.None? { return None; }
      HitIsNext(list.c, list.nodes, list.headers, list.chains, list.vals, i, hit.value, AtLeast(target));
      CacheLeafHit(leaf, hit.value, i, lastKey);
      return Some(lastKey);
    }

    /** The least live key at or above the target, whatever the cached position says. */
    method SkipTo(target: int) returns (r: Option<int>)
      requires Valid()
      modifies this
      ensures Valid()
      ensures old(currentLeaf).None? ==> r == None && unchanged(this)
      ensures old(currentLeaf).Some? && target <= old(lastKey) ==> r == Some(lastKey) && unchanged(this)
      ensures old(currentLeaf).Some? && old(lastKey) < target ==> Answers(AtLeast(target), r)
    {
      hide TreeOK, PathOK, IsNext;
      if currentLeaf.None? { return None; }
      if target <= lastKey { return Some(lastKey); }
      if !optimistic {
        r := SkipToLockedFromRoot(target);
        return;
      }
      var leaf := currentLeaf.value;
      if !(cachedNextMinKeyValid && target >= cachedNextMinKey) {
        r := ScanCurrentLeaf(leaf, target, leafSlot + 1, 1);
        if r.Some? { return; }
        var validated: bool := *;
        if validated && target < list.nodes[leaf].nextMin {
          r := ScanCurrentLeaf(leaf, target, leafSlot, attempts);
          if r.Some? { return; }
        }
      }
      r := ScanNextLeafOrDescend(leaf, target);
    }
  }

  lemma NextLeaf<P>(c: Config, a: Arena<P>, headers: seq<nat>, chains: seq<seq<nat>>, vals: Vals<P>, i: nat)
    requires TreeOK(c, a, headers, chains, vals) && i < |chains[0]| && chains[0][i] in a
    ensures match a[chains[0][i]].next
            case None => true
            case Some(n) => i + 1 < |chains[0]| && n == chains[0][i + 1] && n in a && IsLeaf(a[n]) && |a[n].keys| > 0
                            && a[n].keys[0] == a[chains[0][i]].nextMin
  {
    hide Settled, Linked;
    HeaderFacts(c, a, headers, chains, vals, 0);
    LevelChain(c, a, headers, chains, vals, 0);
    assert LinkOK(c, a, chains[0], i);
    if i + 1 < |chains[0]| { LeafFacts(c, a, headers, chains, vals, i + 1); }
  }

  lemma AnyFindsGreater<P>(n: Node<P>, start: nat, hit: nat, last: int)
    requires IsLeaf(n) && start <= hit < |n.keys| && last < n.keys[hit]
    requires PassedAll(n, start, hit, Any) && PassedAll(n, 0, start, Greater(last)) && !Passed(n, hit, Any)
    ensures PassedAll(n, 0, hit, Greater(last)) && !Passed(n, hit, Greater(last))
  {
    forall s | 0 <= s < hit ensures Passed(n, s, Greater(last)) {
      if s >= start { assert Passed(n, s, Any); } else { assert Passed(n, s, Greater(last)); }
    }
  }

  lemma HeaderPath<P>(c: Config, a: Arena<P>, headers: seq<nat>, chains: seq<seq<nat>>, vals: Vals<P>,
      path: seq<Option<nat>>)
    requires TreeOK(c, a, headers, chains, vals) && |path| == c.maxHeight
    requires forall l :: 0 <= l < |path| ==> path[l] == if 1 <= l < |headers| then Some(headers[l]) else None
    ensures PathOK(c, a, path, c.lo)
  {
    hide TreeOK;
    HeaderFacts(c, a, headers, chains, vals, 0);
    forall l | 1 <= l < |path| && path[l].Some? ensures StartsBelow(a, path[l].value, l, c.lo) {
      HeaderFacts(c, a, headers, chains, vals, l);
      LevelChain(c, a, headers, chains, vals, l);
    }
  }

  lemma LeafKeysAboveLo<P>(c: Config, a: Arena<P>, headers: seq<nat>, chains: seq<seq<nat>>, vals: Vals<P>, i: nat)
    requires TreeOK(c, a, headers, chains, vals) && i < |chains[0]|
    ensures chains[0][i] in a && forall s :: 0 <= s < |a[chains[0][i]].keys| ==> c.lo <= a[chains[0][i]].keys[s]
  {
    hide TreeOK;
    HeaderFacts(c, a, headers, chains, vals, 0);
    LeafFacts(c, a, headers, chains, vals, i);
    forall s | 0 <= s < |a[chains[0][i]].keys| ensures c.lo <= a[chains[0][i]].keys[s] {
      FirstIsLeast(a[chains[0][i]].keys, s);
    }
  }

  lemma NothingBeforeNext<P>(c: Config, a: Arena<P>, headers: seq<nat>, chains: seq<seq<nat>>, vals: Vals<P>, i: nat,
      m: Match)
    requires TreeOK(c, a, headers, chains, vals) && i < |chains[0]| && NothingBefore(a, chains[0], i, m)
    requires chains[0][i] in a && IsLeaf(a[chains[0][i]]) && PassedAll(a[chains[0][i]], 0, |a[chains[0][i]].keys|, m)
    ensures NothingBefore(a, chains[0], i + 1, m)
    ensures match a[chains[0][i]].next
            case None => i + 1 == |chains[0]|
            case Some(n) => i + 1 < |chains[0]| && n == chains[0][i + 1] && n in a && IsLeaf(a[n])
  {
    hide Settled, Linked;
    HeaderFacts(c, a, headers, chains, vals, 0);
    LevelChain(c, a, headers, chains, vals, 0);
    assert LinkOK(c, a, chains[0], i);
    if i + 1 < |chains[0]| { LeafFacts(c, a, headers, chains, vals, i + 1); }
  }

  lemma EmptyPath<P>(c: Config, a: Arena<P>, path: seq<Option<nat>>, bound: int)
    requires |path| == c.maxHeight > 0 && path[0] == None && forall l :: 1 <= l < |path| ==> path[l] == None
    ensures PathOK(c, a, path, bound)
  {}

  lemma PathLength<P>(c: Config, a: Arena<P>, path: seq<Option<nat>>, bound: int)
    requires PathOK(c, a, path, bound)
    ensures |path| == c.maxHeight > 0 && path[0] == None
  {}

  lemma SetPath<P>(c: Config, a: Arena<P>, path: seq<Option<nat>>, bound: int, l: nat, id: nat)
    requires PathOK(c, a, path, bound) && 1 <= l < c.maxHeight && StartsBelow(a, id, l, bound)
    ensures |path| == c.maxHeight && PathOK(c, a, path[l := Some(id)], bound)
  {}

  lemma WeakenPath<P>(c: Config, a: Arena<P>, path: seq<Option<nat>>, bound: int, bound': int)
    requires PathOK(c, a, path, bound) && bound <= bound'
    ensures PathOK(c, a, path, bound')
  {
    forall l | 1 <= l < |path| && path[l].Some? ensures StartsBelow(a, path[l].value, l, bound') {
      assert StartsBelow(a, path[l].value, l, bound);
    }
  }

  lemma PathNode<P>(c: Config, a: Arena<P>, path: seq<Option<nat>>, bound: int, l: nat)
    requires PathOK(c, a, path, bound) && l < c.maxHeight
    ensures |path| == c.maxHeight && (path[l].Some? ==> l > 0 && StartsBelow(a, path[l].value, l, bound))
  {}

  /** Path entries of a validated descent replace the cached ones. */
  function Merge(path: seq<Option<nat>>, newer: seq<Option<nat>>): seq<Option<nat>>
    requires |path| == |newer|
  {
    seq(|path|, l requires 0 <= l < |path| => if newer[l].Some? then newer[l] else path[l])
  }

  lemma MergePath<P>(c: Config, a: Arena<P>, path: seq<Option<nat>>, newer: seq<Option<nat>>, bound: int)
    requires PathOK(c, a, path, bound) && PathOK(c, a, newer, bound)
    ensures |path| == |newer| && PathOK(c, a, Merge(path, newer), bound)
  {
    var m := Merge(path, newer);
    forall l | 1 <= l < |m| && m[l].Some? ensures StartsBelow(a, m[l].value, l, bound) {
      if newer[l].Some? { assert StartsBelow(a, newer[l].value, l, bound); }
      else { assert StartsBelow(a, path[l].value, l, bound); }
    }
  }

  /** One level of any descent: from a node starting at or below the target, right and then down. */
  lemma DescendStep<P>(c: Config, a: Arena<P>, headers: seq<nat>, chains: seq<seq<nat>>, vals: Vals<P>, l: nat,
      i: nat, slot: nat, target: int)
    requires TreeOK(c, a, headers, chains, vals) && 0 < l < |chains| && i < |chains[l]| && chains[l][i] in a
    requires slot < |a[chains[l][i]].keys| && a[chains[l][i]].keys[slot] <= target
    ensures slot < |a[chains[l][i]].entries| && a[chains[l][i]].entries[slot].Kid?
    ensures StartsBelow(a, a[chains[l][i]].entries[slot].id, l - 1, target)
    ensures StartsBelow(a, chains[l][i], l, target)
  {
    hide TreeOK;
    var below: nat := l - 1;
    var j := TreeChild(c, a, headers, chains, vals, l, i, slot, below);
    LevelChain(c, a, headers, chains, vals, below);
    LevelChain(c, a, headers, chains, vals, l);
    FirstIsLeast(a[chains[l][i]].keys, slot);
  }
}
