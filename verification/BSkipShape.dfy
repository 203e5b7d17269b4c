/** The linked shape of ConcurrentBSkipList: one chain of nodes per level, routing entries from each
    level to the level below, and what an insert or a split does to a chain. Nodes are identified by
    numbers and looked up in an arena, so that sharing and update in place stay visible. */
module BSkipShape {
  import opened Options
  import opened BSkipNodes

  /** Policy of one list: sentinels, kMaxKeys, kMaxHeight and the level function of keys. */
  datatype Config = Config(lo: int, hi: int, maxKeys: nat, maxHeight: nat, top: int -> nat) {
    ghost predicate Valid() {
      lo < hi && 2 <= maxKeys <= 64 && 1 <= maxHeight && forall k :: top(k) < maxHeight
    }
  }

  datatype Entry<P> = Val(payload: P, dead: bool) | Kid(id: nat)

  datatype Node<P> = Node(level: nat, keys: seq<int>, entries: seq<Entry<P>>, next: Option<nat>, nextMin: int)

  type Arena<P> = map<nat, Node<P>>

  // ---------------------------------------------------------------- well-formed chains

  ghost predicate NodeOK<P>(c: Config, n: Node<P>, l: nat) {
    && n.level == l
    && 1 <= |n.keys| <= c.maxKeys
    && |n.entries| == |n.keys|
    && Ascending(n.keys)
    && n.keys[|n.keys| - 1] < n.nextMin
    && forall j :: 0 <= j < |n.entries| ==> (n.entries[j].Val? <==> l == 0)
  }

  /** Node i of the chain points at node i+1 and knows its minimum; the last one knows the sentinel. */
  ghost predicate LinkOK<P>(c: Config, a: Arena<P>, ids: seq<nat>, i: nat)
    requires i < |ids| && (forall j :: 0 <= j < |ids| ==> ids[j] in a && |a[ids[j]].keys| > 0)
  {
    if i + 1 < |ids| then
      a[ids[i]].next == Some(ids[i + 1]) && a[ids[i]].nextMin == a[ids[i + 1]].keys[0]
    else
      a[ids[i]].next == None && a[ids[i]].nextMin == c.hi
  }

  ghost predicate ChainOK<P>(c: Config, a: Arena<P>, ids: seq<nat>, l: nat) {
    && |ids| > 0
    && (forall i :: 0 <= i < |ids| ==> ids[i] in a && NodeOK(c, a[ids[i]], l))
    && (forall i :: 0 <= i < |ids| ==> LinkOK(c, a, ids, i))
    && a[ids[0]].keys[0] == c.lo
    && (forall i, j :: 0 <= i < j < |ids| ==> ids[i] != ids[j])
  }

  ghost predicate HasKey<P>(a: Arena<P>, ids: seq<nat>, k: int) {
    exists i :: 0 <= i < |ids| && ids[i] in a && k in a[ids[i]].keys
  }

  ghost predicate KeysAre<P>(a: Arena<P>, ids: seq<nat>, s: set<int>) {
    forall k :: HasKey(a, ids, k) <==> k in s
  }

  lemma {:induction false} ChainOrder<P>(c: Config, a: Arena<P>, ids: seq<nat>, l: nat, i: nat, j: nat)
    requires ChainOK(c, a, ids, l) && i < j < |ids|
    ensures a[ids[i]].nextMin <= a[ids[j]].keys[0]
  {
    assert LinkOK(c, a, ids, j - 1);
    if i < j - 1 {
      ChainOrder(c, a, ids, l, i, j - 1);
      FirstIsLeast(a[ids[j - 1]].keys, 0);
    }
  }

  lemma FirstIsLeast(s: seq<int>, j: nat)
    requires Ascending(s) && j < |s|
    ensures s[0] <= s[j] <= s[|s| - 1]
  {}

  /** A key lies in the one node whose range [min, nextMin) covers it, or nowhere in the chain. */
  lemma LocateKey<P>(c: Config, a: Arena<P>, ids: seq<nat>, l: nat, i: nat, k: int)
    requires ChainOK(c, a, ids, l) && i < |ids|
    requires a[ids[i]].keys[0] <= k < a[ids[i]].nextMin
    ensures HasKey(a, ids, k) <==> k in a[ids[i]].keys
    ensures forall j :: 0 <= j < |ids| && k in a[ids[j]].keys ==> j == i
  {
    forall j | 0 <= j < |ids| ensures k in a[ids[j]].keys ==> j == i {
      KeysInRange(c, a, ids, l, j, k);
      if i < j {
        ChainOrder(c, a, ids, l, i, j);
      } else if j < i {
        ChainOrder(c, a, ids, l, j, i);
      }
    }
  }

  lemma KeysInRange<P>(c: Config, a: Arena<P>, ids: seq<nat>, l: nat, j: nat, k: int)
    requires ChainOK(c, a, ids, l) && j < |ids|
    ensures k in a[ids[j]].keys ==> a[ids[j]].keys[0] <= k < a[ids[j]].nextMin
  {
    var n := a[ids[j]];
    if k in n.keys {
      var t :| 0 <= t < |n.keys| && n.keys[t] == k;
      FirstIsLeast(n.keys, t);
    }
  }

  // ---------------------------------------------------------------- how nodes may change

  /** The key at a slot, or the upper bound of the node past its last slot. */
  ghost function SlotBound<P>(n: Node<P>, j: nat): int {
    if j < |n.keys| then n.keys[j] else n.nextMin
  }

  /** Minimum and level are fixed for ever; the bound of every slot only ever goes down. */
  ghost predicate EvolvesNode<P>(o: Node<P>, n: Node<P>) {
    && n.level == o.level
    && |o.keys| > 0 && |n.keys| > 0 && n.keys[0] == o.keys[0]
    && n.nextMin <= o.nextMin
    && forall j: nat :: SlotBound(n, j) <= SlotBound(o, j)
  }

  /** What every mutation of the list guarantees to readers holding on to nodes. */
  ghost predicate Evolves<P>(a: Arena<P>, b: Arena<P>) {
    forall id :: id in a && |a[id].keys| > 0 ==> id in b && EvolvesNode(a[id], b[id])
  }

  lemma EvolvesTransitive<P>(a: Arena<P>, b: Arena<P>, d: Arena<P>)
    requires Evolves(a, b) && Evolves(b, d)
    ensures Evolves(a, d)
  {
    forall id | id in a && |a[id].keys| > 0 ensures id in d && EvolvesNode(a[id], d[id]) {
      assert id in b && EvolvesNode(a[id], b[id]);
      assert EvolvesNode(b[id], d[id]);
      forall j: nat ensures SlotBound(d[id], j) <= SlotBound(a[id], j) {
        assert SlotBound(d[id], j) <= SlotBound(b[id], j);
      }
    }
  }

  // ---------------------------------------------------------------- inserting into a node

  function InsertAt<P>(n: Node<P>, s: nat, k: int, e: Entry<P>): Node<P>
    requires s <= |n.keys| == |n.entries|
  {
    n.(keys := n.keys[..s] + [k] + n.keys[s..], entries := n.entries[..s] + [e] + n.entries[s..])
  }

  /** k fits between slots s-1 and s of n. */
  ghost predicate Fits<P>(n: Node<P>, s: nat, k: int) {
    1 <= s <= |n.keys| && n.keys[s - 1] < k < SlotBound(n, s)
  }

  lemma InsertAscends(keys: seq<int>, s: nat, k: int)
    requires Ascending(keys) && 1 <= s <= |keys| && keys[s - 1] < k && (s < |keys| ==> k < keys[s])
    ensures Ascending(keys[..s] + [k] + keys[s..])
  {
    var m := keys[..s] + [k] + keys[s..];
    forall i, j | 0 <= i < j < |m| ensures m[i] < m[j] {
      if i < s {
        assert m[i] <= keys[s - 1];
      }
      if j > s {
        assert keys[s] <= keys[j - 1];
      }
    }
  }

  lemma InsertBounds<P>(c: Config, n: Node<P>, l: nat, s: nat, k: int, e: Entry<P>)
    requires NodeOK(c, n, l) && Fits(n, s, k)
    ensures EvolvesNode(n, InsertAt(n, s, k, e))
  {
    var m := InsertAt(n, s, k, e);
    forall j: nat ensures SlotBound(m, j) <= SlotBound(n, j) {
      if s < j <= |n.keys| {
        assert m.keys[j] == n.keys[j - 1];
        assert n.keys[j - 1] <= n.keys[|n.keys| - 1];
      }
    }
  }

  lemma InsertNodeOK<P>(c: Config, n: Node<P>, l: nat, s: nat, k: int, e: Entry<P>)
    requires NodeOK(c, n, l) && Fits(n, s, k) && |n.keys| < c.maxKeys && (e.Val? <==> l == 0)
    ensures NodeOK(c, InsertAt(n, s, k, e), l)
  {
    InsertAscends(n.keys, s, k);
  }

  lemma InsertMembers(keys: seq<int>, s: nat, k: int)
    requires s <= |keys|
    ensures forall k' :: k' in keys[..s] + [k] + keys[s..] <==> k' in keys || k' == k
  {
    assert keys == keys[..s] + keys[s..];
  }

  lemma InsertNode<P>(c: Config, n: Node<P>, l: nat, s: nat, k: int, e: Entry<P>)
    requires NodeOK(c, n, l) && Fits(n, s, k) && |n.keys| < c.maxKeys && (e.Val? <==> l == 0)
    ensures NodeOK(c, InsertAt(n, s, k, e), l)
    ensures EvolvesNode(n, InsertAt(n, s, k, e))
    ensures forall k' :: k' in InsertAt(n, s, k, e).keys <==> k' in n.keys || k' == k
  {
    hide EvolvesNode, Ascending;
    InsertNodeOK(c, n, l, s, k, e);
    InsertBounds(c, n, l, s, k, e);
    InsertMembers(n.keys, s, k);
  }

  lemma InsertKeepsChain<P>(c: Config, a: Arena<P>, ids: seq<nat>, l: nat, i: nat, s: nat, k: int, e: Entry<P>,
      b: Arena<P>)
    requires ChainOK(c, a, ids, l) && i < |ids|
    requires Fits(a[ids[i]], s, k) && |a[ids[i]].keys| < c.maxKeys && (e.Val? <==> l == 0)
    requires b == a[ids[i] := InsertAt(a[ids[i]], s, k, e)]
    ensures ChainOK(c, b, ids, l) && Evolves(a, b)
    ensures forall keys :: KeysAre(a, ids, keys) ==> KeysAre(b, ids, keys + {k})
  {
    InsertNode(c, a[ids[i]], l, s, k, e);
    forall j | 0 <= j < |ids| ensures LinkOK(c, b, ids, j) {
      assert LinkOK(c, a, ids, j);
    }
    forall keys | KeysAre(a, ids, keys) ensures KeysAre(b, ids, keys + {k}) {
      forall k' ensures HasKey(b, ids, k') <==> k' in keys + {k} {
        assert HasKey(a, ids, k') <==> k' in keys;
        if HasKey(a, ids, k') {
          var j :| 0 <= j < |ids| && ids[j] in a && k' in a[ids[j]].keys;
          assert ids[j] in b && k' in b[ids[j]].keys;
        }
        if k' == k {
          assert ids[i] in b && k' in b[ids[i]].keys;
        }
        if HasKey(b, ids, k') && k' != k {
          var j :| 0 <= j < |ids| && ids[j] in b && k' in b[ids[j]].keys;
          assert ids[j] in a && k' in a[ids[j]].keys;
        }
      }
    }
  }

  // ---------------------------------------------------------------- splitting a node

  function LeftPart<P>(n: Node<P>, at: nat, newId: nat, newMin: int): Node<P>
    requires at <= |n.keys| == |n.entries|
  {
    n.(keys := n.keys[..at], entries := n.entries[..at], next := Some(newId), nextMin := newMin)
  }

  /** The new sibling: the moved slots behind the promoted key, if there is one. */
  function RightPart<P>(n: Node<P>, at: nat, pk: seq<int>, pe: seq<Entry<P>>): Node<P>
    requires at <= |n.keys| == |n.entries|
  {
    n.(keys := pk + n.keys[at..], entries := pe + n.entries[at..])
  }

  ghost predicate CanSplit<P>(c: Config, n: Node<P>, l: nat, at: nat, pk: seq<int>, pe: seq<Entry<P>>) {
    && 1 <= at <= |n.keys|
    && |pk| == |pe| <= 1
    && 1 <= |pk| + |n.keys| - at <= c.maxKeys
    && (|pk| == 1 ==> n.keys[at - 1] < pk[0] < SlotBound(n, at) && (pe[0].Val? <==> l == 0))
  }

  lemma SplitRight<P>(c: Config, n: Node<P>, l: nat, at: nat, pk: seq<int>, pe: seq<Entry<P>>)
    requires NodeOK(c, n, l) && CanSplit(c, n, l, at, pk, pe)
    ensures var r := RightPart(n, at, pk, pe); NodeOK(c, r, l) && n.keys[at - 1] < r.keys[0] <= SlotBound(n, at)
  {
    var r := RightPart(n, at, pk, pe);
    forall i, j | 0 <= i < j < |r.keys| ensures r.keys[i] < r.keys[j] {
      if i < |pk| {
        assert n.keys[at] <= n.keys[at + j - |pk|];
      } else {
        assert r.keys[i] == n.keys[at + i - |pk|] && r.keys[j] == n.keys[at + j - |pk|];
      }
    }
    if at < |n.keys| {
      assert r.keys[|r.keys| - 1] == n.keys[|n.keys| - 1];
      assert n.keys[at - 1] < n.keys[at];
    }
  }

  lemma SplitLeft<P>(c: Config, n: Node<P>, l: nat, at: nat, newId: nat, newMin: int)
    requires NodeOK(c, n, l) && 1 <= at <= |n.keys| && n.keys[at - 1] < newMin <= SlotBound(n, at)
    ensures var lft := LeftPart(n, at, newId, newMin); NodeOK(c, lft, l) && EvolvesNode(n, lft)
  {
    var lft := LeftPart(n, at, newId, newMin);
    forall j: nat ensures SlotBound(lft, j) <= SlotBound(n, j) {
      if at <= j < |n.keys| {
        assert n.keys[at] <= n.keys[j];
      }
    }
    assert SlotBound(n, at) <= n.nextMin;
  }

  lemma SplitNode<P>(c: Config, n: Node<P>, l: nat, at: nat, pk: seq<int>, pe: seq<Entry<P>>, newId: nat)
    requires NodeOK(c, n, l) && CanSplit(c, n, l, at, pk, pe)
    ensures var r := RightPart(n, at, pk, pe);
            var lft := LeftPart(n, at, newId, r.keys[0]);
            && NodeOK(c, r, l) && NodeOK(c, lft, l) && EvolvesNode(n, lft)
            && forall k' :: k' in lft.keys || k' in r.keys <==> k' in n.keys || k' in pk
  {
    SplitRight(c, n, l, at, pk, pe);
    SplitLeft(c, n, l, at, newId, RightPart(n, at, pk, pe).keys[0]);
    assert n.keys == n.keys[..at] + n.keys[at..];
  }

  function SplitIds(ids: seq<nat>, i: nat, newId: nat): seq<nat>
    requires i < |ids|
  {
    ids[..i + 1] + [newId] + ids[i + 1..]
  }

  /** b is a with node i of the chain split at the slot, behind the promoted key if there is one. */
  ghost predicate IsSplit<P>(c: Config, a: Arena<P>, ids: seq<nat>, l: nat, i: nat,
                             at: nat, pk: seq<int>, pe: seq<Entry<P>>, newId: nat, b: Arena<P>) {
    && ChainOK(c, a, ids, l) && i < |ids| && newId !in a && CanSplit(c, a[ids[i]], l, at, pk, pe)
    && var r := RightPart(a[ids[i]], at, pk, pe);
       b == a[ids[i] := LeftPart(a[ids[i]], at, newId, r.keys[0])][newId := r]
  }

  lemma SplitNodes<P>(c: Config, a: Arena<P>, ids: seq<nat>, l: nat, i: nat,
                      at: nat, pk: seq<int>, pe: seq<Entry<P>>, newId: nat, b: Arena<P>)
    requires IsSplit(c, a, ids, l, i, at, pk, pe, newId, b)
    ensures var ids' := SplitIds(ids, i, newId);
            && (forall j :: 0 <= j < |ids'| ==> ids'[j] in b && NodeOK(c, b[ids'[j]], l))
            && (forall j, j' :: 0 <= j < j' < |ids'| ==> ids'[j] != ids'[j'])
    ensures Evolves(a, b)
  {
    SplitNode(c, a[ids[i]], l, at, pk, pe, newId);
  }

  lemma SplitKeepsChain<P>(c: Config, a: Arena<P>, ids: seq<nat>, l: nat, i: nat,
                           at: nat, pk: seq<int>, pe: seq<Entry<P>>, newId: nat, b: Arena<P>)
    requires IsSplit(c, a, ids, l, i, at, pk, pe, newId, b)
    ensures ChainOK(c, b, SplitIds(ids, i, newId), l) && Evolves(a, b)
  {
    hide Evolves, Ascending;
    SplitNodes(c, a, ids, l, i, at, pk, pe, newId, b);
    var ids' := SplitIds(ids, i, newId);
    forall j | 0 <= j < |ids'| ensures LinkOK(c, b, ids', j) {
      SplitLink(c, a, ids, l, i, at, pk, pe, newId, b, j);
    }
  }

  lemma SplitLink<P>(c: Config, a: Arena<P>, ids: seq<nat>, l: nat, i: nat,
                     at: nat, pk: seq<int>, pe: seq<Entry<P>>, newId: nat, b: Arena<P>, j: nat)
    requires IsSplit(c, a, ids, l, i, at, pk, pe, newId, b)
    requires j < |SplitIds(ids, i, newId)|
    ensures forall t :: 0 <= t < |SplitIds(ids, i, newId)| ==>
              SplitIds(ids, i, newId)[t] in b && |b[SplitIds(ids, i, newId)[t]].keys| > 0
    ensures LinkOK(c, b, SplitIds(ids, i, newId), j)
  {
    var ids' := SplitIds(ids, i, newId);
    var j' := if j > i then j - 1 else j;
    assert LinkOK(c, a, ids, j');
    if j > i + 1 || j < i {
      assert b[ids'[j]] == a[ids[j']];
      if j + 1 < |ids'| && j + 1 != i {
        assert b[ids'[j + 1]] == a[ids[j' + 1]];
      }
    }
  }

  lemma SplitKeepsKeys<P>(c: Config, a: Arena<P>, ids: seq<nat>, l: nat, i: nat,
                          at: nat, pk: seq<int>, pe: seq<Entry<P>>, newId: nat, b: Arena<P>, keys: set<int>)
    requires IsSplit(c, a, ids, l, i, at, pk, pe, newId, b) && KeysAre(a, ids, keys)
    ensures KeysAre(b, SplitIds(ids, i, newId), keys + (set k | k in pk))
  {
    forall k' ensures HasKey(b, SplitIds(ids, i, newId), k') <==> k' in keys + (set k | k in pk) {
      SplitHasKey(c, a, ids, l, i, at, pk, pe, newId, b, k');
      assert HasKey(a, ids, k') <==> k' in keys;
    }
  }

  lemma SplitHasKey<P>(c: Config, a: Arena<P>, ids: seq<nat>, l: nat, i: nat,
                       at: nat, pk: seq<int>, pe: seq<Entry<P>>, newId: nat, b: Arena<P>, k: int)
    requires IsSplit(c, a, ids, l, i, at, pk, pe, newId, b)
    ensures HasKey(b, SplitIds(ids, i, newId), k) <==> HasKey(a, ids, k) || k in pk
  {
    SplitNode(c, a[ids[i]], l, at, pk, pe, newId);
    RegroupHasKey(a, ids, i, pk, newId, b, k);
  }

  lemma RegroupHasKey<P>(a: Arena<P>, ids: seq<nat>, i: nat, pk: seq<int>, newId: nat, b: Arena<P>, k: int)
    requires i < |ids| && newId !in a && newId in b
    requires forall j :: 0 <= j < |ids| ==> ids[j] in a && ids[j] in b && (j != i ==> b[ids[j]] == a[ids[j]])
    requires k in b[ids[i]].keys || k in b[newId].keys <==> k in a[ids[i]].keys || k in pk
    ensures HasKey(b, SplitIds(ids, i, newId), k) <==> HasKey(a, ids, k) || k in pk
  {
    var ids' := SplitIds(ids, i, newId);
    assert ids'[i] == ids[i] && ids'[i + 1] == newId;
    forall j | 0 <= j < |ids| && j != i ensures k in a[ids[j]].keys ==> HasKey(b, ids', k) {
      var j' := if j < i then j else j + 1;
      assert ids'[j'] == ids[j];
    }
    forall j | 0 <= j < |ids'| && j != i && j != i + 1
      ensures ids'[j] in b && k in b[ids'[j]].keys ==> HasKey(a, ids, k)
    {
      var j' := if j < i then j else j - 1;
      assert ids'[j] == ids[j'];
    }
  }
}
