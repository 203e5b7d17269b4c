/** All levels together: routing from level to level, which keys stand on which level, and the state
    in the middle of an insert, when the tower of a key has been built down to some level only. */
module BSkipLevels {
  import opened Options
  import opened BSkipNodes
  import opened BSkipShape

  /** A routing entry points at a node one level down whose minimum is the routing key, or it is the
      one entry whose child has been allocated but not yet linked. */
  ghost predicate EntryOK<P>(a: Arena<P>, k: int, e: Entry<P>, down: seq<nat>, pend: Option<(int, nat)>) {
    && e.Kid?
    && ((e.id in down && e.id in a && |a[e.id].keys| > 0 && a[e.id].keys[0] == k) || pend == Some((k, e.id)))
  }

  ghost predicate NodeRouteOK<P>(a: Arena<P>, n: Node<P>, down: seq<nat>, pend: Option<(int, nat)>) {
    |n.entries| == |n.keys| && forall j :: 0 <= j < |n.keys| ==> EntryOK(a, n.keys[j], n.entries[j], down, pend)
  }

  ghost predicate RouteOK<P>(a: Arena<P>, up: seq<nat>, down: seq<nat>, pend: Option<(int, nat)>) {
    forall i :: 0 <= i < |up| ==> up[i] in a && NodeRouteOK(a, a[up[i]], down, pend)
  }

  ghost function LevelSet(c: Config, keys: set<int>, l: nat): set<int> {
    {c.lo} + set k | k in keys && c.top(k) >= l
  }

  ghost predicate LeafMatch<P>(c: Config, a: Arena<P>, ids: seq<nat>, vals: map<int, Entry<P>>) {
    forall i :: 0 <= i < |ids| ==> ids[i] in a && LeafNodeMatch(c, a[ids[i]], vals)
  }

  /** Each slot of a leaf holds what the abstract map says of its key; the sentinel slot is dead. */
  ghost predicate LeafNodeMatch<P>(c: Config, n: Node<P>, vals: map<int, Entry<P>>) {
    |n.entries| == |n.keys| && forall j :: 0 <= j < |n.keys| ==>
      if n.keys[j] == c.lo then n.entries[j].Val? && n.entries[j].dead
      else n.keys[j] in vals && n.entries[j] == vals[n.keys[j]]
  }

  /** What level l holds besides the old keys when the insert of k has finished the levels above lvl. */
  ghost function Extra(k: int, top: nat, lvl: int, l: nat): set<int> {
    if lvl < l <= top then {k} else {}
  }

  ghost function PendAt(k: int, top: nat, lvl: int, pend: nat, l: nat): Option<(int, nat)> {
    if l == lvl + 1 <= top then Some((k, pend)) else None
  }

  ghost predicate ChainsOK<P>(c: Config, a: Arena<P>, chains: seq<seq<nat>>) {
    forall l :: 0 <= l < |chains| ==> ChainOK(c, a, chains[l], l)
  }

  ghost predicate LevelKeysOK<P>(c: Config, a: Arena<P>, chains: seq<seq<nat>>, keys: set<int>, k: int, top: nat,
      lvl: int) {
    forall l :: 0 <= l < |chains| ==> KeysAre(a, chains[l], LevelSet(c, keys, l) + Extra(k, top, lvl, l))
  }

  ghost predicate RoutesOK<P>(a: Arena<P>, chains: seq<seq<nat>>, k: int, top: nat, lvl: int, pend: nat) {
    forall l :: 1 <= l < |chains| ==> RouteAt(a, chains, k, top, lvl, pend, l)
  }

  ghost predicate RouteAt<P>(a: Arena<P>, chains: seq<seq<nat>>, k: int, top: nat, lvl: int, pend: nat, l: nat)
    requires 1 <= l < |chains|
  {
    RouteOK(a, chains[l], chains[l - 1], PendAt(k, top, lvl, pend, l))
  }

  /** Levels above lvl (and up to top) already hold k; pend is the node waiting to be linked at lvl. */
  ghost predicate MidOK<P>(c: Config, a: Arena<P>, chains: seq<seq<nat>>, keys: set<int>,
                           k: int, top: nat, lvl: int, pend: nat) {
    && -1 <= lvl < |chains| <= c.maxHeight
    && ChainsOK(c, a, chains)
    && LevelKeysOK(c, a, chains, keys, k, top, lvl)
    && RoutesOK(a, chains, k, top, lvl, pend)
  }

  /** b differs from a only in nodes of level lvl, and only as mutations may. */
  ghost predicate OnlyLevel<P>(a: Arena<P>, b: Arena<P>, lvl: nat) {
    Evolves(a, b) && forall id :: id in a && a[id].level != lvl ==> id in b && b[id] == a[id]
  }

  lemma ChainFrame<P>(c: Config, a: Arena<P>, b: Arena<P>, lvl: nat, ids: seq<nat>, l: nat, s: set<int>)
    requires ChainOK(c, a, ids, l) && KeysAre(a, ids, s) && OnlyLevel(a, b, lvl) && l != lvl
    ensures ChainOK(c, b, ids, l) && KeysAre(b, ids, s)
  {
    assert forall i :: 0 <= i < |ids| ==> b[ids[i]] == a[ids[i]];
    forall i | 0 <= i < |ids| ensures LinkOK(c, b, ids, i) {
      assert LinkOK(c, a, ids, i);
    }
    forall k ensures HasKey(b, ids, k) <==> k in s {
      assert HasKey(a, ids, k) <==> k in s;
    }
  }

  lemma NodeRouteFrame<P>(a: Arena<P>, b: Arena<P>, n: Node<P>, down: seq<nat>, down': seq<nat>,
                          pend: Option<(int, nat)>, pend': Option<(int, nat)>)
    requires NodeRouteOK(a, n, down, pend) && Evolves(a, b)
    requires forall id :: id in down ==> id in down'
    requires pend.Some? && pend' != pend ==>
      pend.value.1 in down' && pend.value.1 in b && |b[pend.value.1].keys| > 0 &&
          b[pend.value.1].keys[0] == pend.value.0
    ensures NodeRouteOK(b, n, down', pend')
  {
    forall j | 0 <= j < |n.keys| ensures EntryOK(b, n.keys[j], n.entries[j], down', pend') {
      assert EntryOK(a, n.keys[j], n.entries[j], down, pend);
    }
  }

  /** Routing into a changed level, and from levels that did not change, survives. */
  lemma RouteFrame<P>(c: Config, a: Arena<P>, b: Arena<P>, lvl: nat, up: seq<nat>, l: nat,
                      down: seq<nat>, down': seq<nat>, pend: Option<(int, nat)>, pend': Option<(int, nat)>)
    requires ChainOK(c, a, up, l) && l != lvl && RouteOK(a, up, down, pend) && OnlyLevel(a, b, lvl)
    requires forall id :: id in down ==> id in down'
    requires pend.Some? && pend' != pend ==>
      pend.value.1 in down' && pend.value.1 in b && |b[pend.value.1].keys| > 0 &&
          b[pend.value.1].keys[0] == pend.value.0
    ensures RouteOK(b, up, down', pend')
  {
    forall i | 0 <= i < |up| ensures up[i] in b && NodeRouteOK(b, b[up[i]], down', pend') {
      assert b[up[i]] == a[up[i]];
      NodeRouteFrame(a, b, a[up[i]], down, down', pend, pend');
    }
  }

  /** A level at which k was entered into node i keeps routing its other entries. */
  lemma RouteInsert<P>(c: Config, a: Arena<P>, b: Arena<P>, up: seq<nat>, l: nat, i: nat, s: nat,
                       k: int, p: nat, down: seq<nat>)
    requires ChainOK(c, a, up, l) && RouteOK(a, up, down, None) && i < |up| && Evolves(a, b)
    requires s <= |a[up[i]].keys| && b == a[up[i] := InsertAt(a[up[i]], s, k, Kid(p))]
    ensures RouteOK(b, up, down, Some((k, p)))
  {
    forall i' | 0 <= i' < |up| ensures NodeRouteOK(b, b[up[i']], down, Some((k, p))) {
      NodeRouteFrame(a, b, a[up[i']], down, down, None, Some((k, p)));
      if i' == i {
        var n, m := a[up[i]], b[up[i]];
        forall j | 0 <= j < |m.keys| ensures EntryOK(b, m.keys[j], m.entries[j], down, Some((k, p))) {
          if j < s {
            assert EntryOK(b, n.keys[j], n.entries[j], down, Some((k, p)));
          } else if j > s {
            assert EntryOK(b, n.keys[j - 1], n.entries[j - 1], down, Some((k, p)));
          }
        }
      }
    }
  }

  lemma SplitNodeRoute<P>(b: Arena<P>, n: Node<P>, at: nat, pk: seq<int>, pe: seq<Entry<P>>, newId: nat, newMin: int,
                          down: seq<nat>, pend: Option<(int, nat)>)
    requires NodeRouteOK(b, n, down, pend) && at <= |n.keys| && |pk| == |pe| <= 1
    requires |pk| == 1 ==> pe[0].Kid? && pend == Some((pk[0], pe[0].id))
    ensures NodeRouteOK(b, RightPart(n, at, pk, pe), down, pend) &&
        NodeRouteOK(b, LeftPart(n, at, newId, newMin), down, pend)
  {
    var r := RightPart(n, at, pk, pe);
    forall j | 0 <= j < |r.keys| ensures EntryOK(b, r.keys[j], r.entries[j], down, pend) {
      if j >= |pk| {
        var j' := j - |pk| + at;
        assert EntryOK(b, n.keys[j'], n.entries[j'], down, pend);
      }
    }
  }

  lemma RouteSplit<P>(c: Config, a: Arena<P>, b: Arena<P>, up: seq<nat>, l: nat, i: nat, at: nat,
                      pk: seq<int>, pe: seq<Entry<P>>, newId: nat, down: seq<nat>, pend: Option<(int, nat)>)
    requires IsSplit(c, a, up, l, i, at, pk, pe, newId, b) && RouteOK(a, up, down, None) && Evolves(a, b)
    requires |pk| == 1 ==> pe[0].Kid? && pend == Some((pk[0], pe[0].id))
    ensures RouteOK(b, SplitIds(up, i, newId), down, pend)
  {
    NodeRouteFrame(a, b, a[up[i]], down, down, None, pend);
    SplitNodeRoute(b, a[up[i]], at, pk, pe, newId, b[newId].keys[0], down, pend);
    RegroupRoute(a, b, up, i, newId, down, pend);
  }

  lemma RegroupRoute<P>(a: Arena<P>, b: Arena<P>, up: seq<nat>, i: nat, newId: nat, down: seq<nat>,
      pend: Option<(int, nat)>)
    requires RouteOK(a, up, down, None) && Evolves(a, b) && i < |up| && newId in b && up[i] in b
    requires forall j :: 0 <= j < |up| && j != i ==> up[j] in b && b[up[j]] == a[up[j]]
    requires NodeRouteOK(b, b[up[i]], down, pend) && NodeRouteOK(b, b[newId], down, pend)
    ensures RouteOK(b, SplitIds(up, i, newId), down, pend)
  {
    var up' := SplitIds(up, i, newId);
    forall i' | 0 <= i' < |up'| ensures up'[i'] in b && NodeRouteOK(b, b[up'[i']], down, pend) {
      if i' < i || i' > i + 1 {
        var j' := if i' < i then i' else i' - 1;
        assert up'[i'] == up[j'];
        NodeRouteFrame(a, b, a[up[j']], down, down, None, pend);
      }
    }
  }

  // ---------------------------------------------------------------- one level of an insert

  /** Nothing to do above the top level of the key. */
  lemma StepAbove<P>(c: Config, a: Arena<P>, chains: seq<seq<nat>>, keys: set<int>, k: int, top: nat, lvl: nat,
      pend: nat, pend': nat)
    requires MidOK(c, a, chains, keys, k, top, lvl, pend) && top < lvl
    ensures MidOK(c, a, chains, keys, k, top, lvl - 1, pend')
  {
    assert forall l: nat :: Extra(k, top, lvl - 1, l) == Extra(k, top, lvl, l);
    var lvl' := lvl - 1;
    forall l | 1 <= l < |chains| ensures RouteAt(a, chains, k, top, lvl', pend', l) {
      assert RouteAt(a, chains, k, top, lvl, pend, l);
    }
  }

  lemma FrameKeys<P>(c: Config, a: Arena<P>, b: Arena<P>, chains: seq<seq<nat>>, ids: seq<nat>, keys: set<int>,
                     k: int, top: nat, lvl: nat, lvl': int)
    requires lvl < |chains| && ChainsOK(c, a, chains) && LevelKeysOK(c, a, chains, keys, k, top, lvl)
    requires OnlyLevel(a, b, lvl) && lvl - 1 <= lvl' <= lvl
    requires ChainOK(c, b, ids, lvl) && KeysAre(b, ids, LevelSet(c, keys, lvl) + Extra(k, top, lvl', lvl))
    ensures ChainsOK(c, b, chains[lvl := ids]) && LevelKeysOK(c, b, chains[lvl := ids], keys, k, top, lvl')
  {
    var chains' := chains[lvl := ids];
    forall l | 0 <= l < |chains|
      ensures ChainOK(c, b, chains'[l], l) && KeysAre(b, chains'[l], LevelSet(c, keys, l) + Extra(k, top, lvl', l))
    {
      if l != lvl {
        assert Extra(k, top, lvl', l) == Extra(k, top, lvl, l);
        ChainFrame(c, a, b, lvl, chains[l], l, LevelSet(c, keys, l) + Extra(k, top, lvl, l));
      }
    }
  }

  lemma FrameRoutes<P>(c: Config, a: Arena<P>, b: Arena<P>, chains: seq<seq<nat>>, ids: seq<nat>,
                       k: int, top: nat, lvl: nat, pend: nat, lvl': int, pend': nat)
    requires lvl < |chains| && ChainsOK(c, a, chains) && RoutesOK(a, chains, k, top, lvl, pend)
    requires OnlyLevel(a, b, lvl) && (lvl' == lvl - 1 || (lvl' == lvl && pend' == pend))
    requires forall id :: id in chains[lvl] ==> id in ids
    requires lvl > 0 ==> RouteOK(b, ids, chains[lvl - 1], PendAt(k, top, lvl', pend', lvl))
    requires lvl' == lvl - 1 && lvl < top ==> pend in ids && pend in b && |b[pend].keys| > 0 && b[pend].keys[0] == k
    ensures RoutesOK(b, chains[lvl := ids], k, top, lvl', pend')
  {
    var chains' := chains[lvl := ids];
    forall l | 1 <= l < |chains| ensures RouteAt(b, chains', k, top, lvl', pend', l) {
      if l != lvl {
        assert RouteAt(a, chains, k, top, lvl, pend, l);
        RouteFrame(c, a, b, lvl, chains[l], l, chains[l - 1], chains'[l - 1],
                   PendAt(k, top, lvl, pend, l), PendAt(k, top, lvl', pend', l));
      }
    }
  }

  /** Only this level changed, its chain ids is in order, and it holds and routes what lvl' says. */
  ghost predicate LevelDone<P>(c: Config, a: Arena<P>, b: Arena<P>, chains: seq<seq<nat>>, ids: seq<nat>,
      keys: set<int>,
                               k: int, top: nat, lvl: nat, pend: nat, lvl': int, pend': nat)
    requires lvl < |chains|
  {
    && OnlyLevel(a, b, lvl)
    && (forall id :: id in chains[lvl] ==> id in ids)
    && ChainOK(c, b, ids, lvl) && KeysAre(b, ids, LevelSet(c, keys, lvl) + Extra(k, top, lvl', lvl))
    && (lvl > 0 ==> RouteOK(b, ids, chains[lvl - 1], PendAt(k, top, lvl', pend', lvl)))
    && (lvl' == lvl - 1 && lvl < top ==> pend in ids && pend in b && |b[pend].keys| > 0 && b[pend].keys[0] == k)
  }

  lemma StepFrame<P>(c: Config, a: Arena<P>, b: Arena<P>, chains: seq<seq<nat>>, ids: seq<nat>, keys: set<int>,
                     k: int, top: nat, lvl: nat, pend: nat, lvl': int, pend': nat)
    requires MidOK(c, a, chains, keys, k, top, lvl, pend)
    requires LevelDone(c, a, b, chains, ids, keys, k, top, lvl, pend, lvl', pend')
    requires lvl' == lvl - 1 || (lvl' == lvl && pend' == pend)
    ensures MidOK(c, b, chains[lvl := ids], keys, k, top, lvl', pend')
  {
    FrameKeys(c, a, b, chains, ids, keys, k, top, lvl, lvl');
    FrameRoutes(c, a, b, chains, ids, k, top, lvl, pend, lvl', pend');
  }

  lemma StepDown<P>(c: Config, a: Arena<P>, b: Arena<P>, chains: seq<seq<nat>>, ids: seq<nat>, chains': seq<seq<nat>>,
      keys: set<int>,
                    k: int, top: nat, lvl: nat, pend: nat, lvl': int, pend': nat)
    requires MidOK(c, a, chains, keys, k, top, lvl, pend) && lvl' == lvl - 1
    requires LevelDone(c, a, b, chains, ids, keys, k, top, lvl, pend, lvl', pend') && chains' == chains[lvl := ids]
    ensures MidOK(c, b, chains', keys, k, top, lvl', pend') && OnlyLevel(a, b, lvl)
  {
    StepFrame(c, a, b, chains, ids, keys, k, top, lvl, pend, lvl', pend');
  }

  lemma InsertOneLevel<P>(c: Config, a: Arena<P>, b: Arena<P>, ids: seq<nat>, down: seq<nat>, lvl: nat, i: nat, s: nat,
                          k: int, e: Entry<P>, pend: nat, keys: set<int>)
    requires ChainOK(c, a, ids, lvl) && i < |ids| && KeysAre(a, ids, keys)
    requires Fits(a[ids[i]], s, k) && |a[ids[i]].keys| < c.maxKeys
    requires if lvl == 0 then e.Val? else e == Kid(pend) && RouteOK(a, ids, down, None)
    requires b == a[ids[i] := InsertAt(a[ids[i]], s, k, e)]
    ensures ChainOK(c, b, ids, lvl) && KeysAre(b, ids, keys + {k}) && OnlyLevel(a, b, lvl)
    ensures lvl > 0 ==> RouteOK(b, ids, down, Some((k, pend)))
  {
    InsertKeepsChain(c, a, ids, lvl, i, s, k, e, b);
    if lvl > 0 { RouteInsert(c, a, b, ids, lvl, i, s, k, pend, down); }
  }

  lemma SplitOneLevel<P>(c: Config, a: Arena<P>, b: Arena<P>, ids: seq<nat>, down: seq<nat>, lvl: nat, i: nat, at: nat,
                         pk: seq<int>, pe: seq<Entry<P>>, newId: nat, pend: Option<(int, nat)>, keys: set<int>)
    requires IsSplit(c, a, ids, lvl, i, at, pk, pe, newId, b) && KeysAre(a, ids, keys)
    requires lvl > 0 ==> RouteOK(a, ids, down, None)
    requires lvl > 0 && |pk| == 1 ==> pe[0].Kid? && pend == Some((pk[0], pe[0].id))
    ensures ChainOK(c, b, SplitIds(ids, i, newId), lvl) && OnlyLevel(a, b, lvl)
    ensures KeysAre(b, SplitIds(ids, i, newId), keys + (set x: int | x in pk))
    ensures lvl > 0 ==> RouteOK(b, SplitIds(ids, i, newId), down, pend)
  {
    SplitKeepsChain(c, a, ids, lvl, i, at, pk, pe, newId, b);
    SplitKeepsKeys(c, a, ids, lvl, i, at, pk, pe, newId, b, keys);
    if lvl > 0 { RouteSplit(c, a, b, ids, lvl, i, at, pk, pe, newId, down, pend); }
  }

  ghost function Below(chains: seq<seq<nat>>, lvl: nat): seq<nat>
    requires lvl <= |chains|
  {
    if lvl > 0 then chains[lvl - 1] else []
  }

  lemma ExtraFacts(c: Config, keys: set<int>, k: int, top: nat, lvl: nat)
    ensures LevelSet(c, keys, lvl) + (set x: int | x in []) == LevelSet(c, keys, lvl) + Extra(k, top, lvl, lvl)
    ensures lvl <= top ==> LevelSet(c, keys, lvl) + (set x: int | x in [k]) == LevelSet(c, keys, lvl) + Extra(k, top,
        lvl - 1, lvl)
    ensures lvl <= top ==> LevelSet(c, keys, lvl) + {k} == LevelSet(c, keys, lvl) + Extra(k, top, lvl - 1, lvl)
  {
    assert (set x: int | x in [k]) == {k};
    assert (set x: int | x in []) == {};
  }

  lemma LevelFacts<P>(c: Config, a: Arena<P>, chains: seq<seq<nat>>, keys: set<int>, k: int, top: nat, lvl: nat,
      pend: nat)
    requires MidOK(c, a, chains, keys, k, top, lvl, pend)
    ensures ChainOK(c, a, chains[lvl], lvl) && KeysAre(a, chains[lvl], LevelSet(c, keys, lvl))
    ensures lvl > 0 ==> RouteOK(a, chains[lvl], Below(chains, lvl), None)
  {
    assert LevelSet(c, keys, lvl) + Extra(k, top, lvl, lvl) == LevelSet(c, keys, lvl);
    assert lvl > 0 ==> RouteAt(a, chains, k, top, lvl, pend, lvl);
  }

  ghost predicate IsInsert<P>(c: Config, a: Arena<P>, ids: seq<nat>, i: nat, s: nat, k: int, e: Entry<P>, b: Arena<P>) {
    && i < |ids| && ids[i] in a && Fits(a[ids[i]], s, k)
    && |a[ids[i]].keys| < c.maxKeys && |a[ids[i]].keys| == |a[ids[i]].entries|
    && b == a[ids[i] := InsertAt(a[ids[i]], s, k, e)]
  }

  lemma InsertDone<P>(c: Config, a: Arena<P>, b: Arena<P>, chains: seq<seq<nat>>, keys: set<int>,
                      k: int, top: nat, pend: nat, i: nat, s: nat, e: Entry<P>, lvl': int, pend': nat)
    requires MidOK(c, a, chains, keys, k, top, top, pend) && lvl' == top - 1
    requires IsInsert(c, a, chains[top], i, s, k, e, b)
    requires if top == 0 then e.Val? else e == Kid(pend')
    ensures LevelDone(c, a, b, chains, chains[top], keys, k, top, top, pend, lvl', pend')
  {
    LevelFacts(c, a, chains, keys, k, top, top, pend);
    ExtraFacts(c, keys, k, top, top);
    InsertOneLevel(c, a, b, chains[top], Below(chains, top), top, i, s, k, e, pend', LevelSet(c, keys, top));
  }

  /** At the top level of k, k and its future child enter node i. */
  lemma StepInsert<P>(c: Config, a: Arena<P>, b: Arena<P>, chains: seq<seq<nat>>, keys: set<int>,
                      k: int, top: nat, pend: nat, i: nat, s: nat, e: Entry<P>, lvl': int, pend': nat)
    requires MidOK(c, a, chains, keys, k, top, top, pend) && lvl' == top - 1
    requires IsInsert(c, a, chains[top], i, s, k, e, b)
    requires if top == 0 then e.Val? else e == Kid(pend')
    ensures MidOK(c, b, chains, keys, k, top, lvl', pend') && OnlyLevel(a, b, top)
  {
    var ids := chains[top];
    InsertDone(c, a, b, chains, keys, k, top, pend, i, s, e, lvl', pend');
    UpdateSame(chains, top);
    StepDown(c, a, b, chains, ids, chains, keys, k, top, top, pend, lvl', pend');
  }

  lemma UpdateSame<T>(s: seq<T>, i: nat)
    requires i < |s|
    ensures s[i := s[i]] == s
  {}

  lemma HalveDone<P>(c: Config, a: Arena<P>, b: Arena<P>, chains: seq<seq<nat>>, keys: set<int>, k: int, top: nat,
                     pend: nat, i: nat, at: nat, newId: nat)
    requires MidOK(c, a, chains, keys, k, top, top, pend)
    requires IsSplit(c, a, chains[top], top, i, at, [], [], newId, b)
    ensures LevelDone(c, a, b, chains, SplitIds(chains[top], i, newId), keys, k, top, top, pend, top, pend)
  {
    LevelFacts(c, a, chains, keys, k, top, top, pend);
    ExtraFacts(c, keys, k, top, top);
    SplitOneLevel(c, a, b, chains[top], Below(chains, top), top, i, at, [], [], newId, None, LevelSet(c, keys, top));
    SplitIdsGrow(chains[top], i, newId);
  }

  lemma PromoteDone<P>(c: Config, a: Arena<P>, b: Arena<P>, chains: seq<seq<nat>>, keys: set<int>, k: int, top: nat,
      lvl: nat,
                       pend: nat, i: nat, at: nat, e: Entry<P>, lvl': int, pend': nat)
    requires MidOK(c, a, chains, keys, k, top, lvl, pend) && lvl < top && lvl' == lvl - 1
    requires IsSplit(c, a, chains[lvl], lvl, i, at, [k], [e], pend, b)
    requires lvl > 0 ==> e == Kid(pend')
    ensures LevelDone(c, a, b, chains, SplitIds(chains[lvl], i, pend), keys, k, top, lvl, pend, lvl', pend')
  {
    LevelFacts(c, a, chains, keys, k, top, lvl, pend);
    ExtraFacts(c, keys, k, top, lvl);
    SplitOneLevel(c, a, b, chains[lvl], Below(chains, lvl), lvl, i, at, [k], [e], pend, Some((k, pend')),
        LevelSet(c, keys, lvl));
    SplitIdsGrow(chains[lvl], i, pend);
  }

  /** A full node at the top level is halved first; no key moves to another level. */
  lemma StepHalve<P>(c: Config, a: Arena<P>, b: Arena<P>, chains: seq<seq<nat>>, keys: set<int>,
                     k: int, top: nat, pend: nat, i: nat, at: nat, newId: nat)
    requires MidOK(c, a, chains, keys, k, top, top, pend)
    requires IsSplit(c, a, chains[top], top, i, at, [], [], newId, b)
    ensures MidOK(c, b, chains[top := SplitIds(chains[top], i, newId)], keys, k, top, top, pend) && OnlyLevel(a, b, top)
  {
    HalveDone(c, a, b, chains, keys, k, top, pend, i, at, newId);
    StepFrame(c, a, b, chains, SplitIds(chains[top], i, newId), keys, k, top, top, pend, top, pend);
  }

  lemma SplitIdsGrow(ids: seq<nat>, i: nat, newId: nat)
    requires i < |ids|
    ensures forall id :: id in ids ==> id in SplitIds(ids, i, newId)
    ensures newId in SplitIds(ids, i, newId)
  {
    assert ids == ids[..i + 1] + ids[i + 1..];
    assert SplitIds(ids, i, newId)[i + 1] == newId;
  }

  /** Below the top level, k heads a new sibling, which is the node its parent was waiting for. */
  lemma StepPromote<P>(c: Config, a: Arena<P>, b: Arena<P>, chains: seq<seq<nat>>, keys: set<int>,
                       k: int, top: nat, lvl: nat, i: nat, at: nat, e: Entry<P>, pend: nat, lvl': int, pend': nat,
                           chains': seq<seq<nat>>)
    requires lvl < top && lvl' == lvl - 1 && MidOK(c, a, chains, keys, k, top, lvl, pend)
    requires IsSplit(c, a, chains[lvl], lvl, i, at, [k], [e], pend, b)
    requires lvl > 0 ==> e == Kid(pend')
    requires chains' == chains[lvl := SplitIds(chains[lvl], i, pend)]
    ensures MidOK(c, b, chains', keys, k, top, lvl', pend') && OnlyLevel(a, b, lvl)
  {
    var ids := SplitIds(chains[lvl], i, pend);
    PromoteDone(c, a, b, chains, keys, k, top, lvl, pend, i, at, e, lvl', pend');
    StepDown(c, a, b, chains, ids, chains', keys, k, top, lvl, pend, lvl', pend');
  }

  // ---------------------------------------------------------------- no insert under way

  /** Every level is a well-formed chain, holds exactly the keys whose level reaches it, and routes
      each of its entries to the node below that starts with that key. */
  ghost predicate Settled<P>(c: Config, a: Arena<P>, chains: seq<seq<nat>>, keys: set<int>) {
    && 1 <= |chains| <= c.maxHeight
    && ChainsOK(c, a, chains)
    && (forall l :: 0 <= l < |chains| ==> KeysAre(a, chains[l], LevelSet(c, keys, l)))
    && (forall l :: 1 <= l < |chains| ==> RouteDown(a, chains, l))
  }

  ghost predicate RouteDown<P>(a: Arena<P>, chains: seq<seq<nat>>, l: nat)
    requires 1 <= l < |chains|
  {
    RouteOK(a, chains[l], chains[l - 1], None)
  }

  lemma BeginInsert<P>(c: Config, a: Arena<P>, chains: seq<seq<nat>>, keys: set<int>, k: int, top: nat, lvl: int,
      pend: nat)
    requires Settled(c, a, chains, keys) && lvl == |chains| - 1
    ensures MidOK(c, a, chains, keys, k, top, lvl, pend)
  {
    forall l | 0 <= l < |chains| ensures KeysAre(a, chains[l], LevelSet(c, keys, l) + Extra(k, top, lvl, l)) {
      assert LevelSet(c, keys, l) + Extra(k, top, lvl, l) == LevelSet(c, keys, l);
    }
    forall l | 1 <= l < |chains| ensures RouteAt(a, chains, k, top, lvl, pend, l) {
      assert RouteDown(a, chains, l);
    }
  }

  lemma FinishInsert<P>(c: Config, a: Arena<P>, chains: seq<seq<nat>>, keys: set<int>, k: int, top: nat, lvl: int,
      pend: nat)
    requires MidOK(c, a, chains, keys, k, top, lvl, pend) && lvl == -1 && top == c.top(k) && |chains| > 0
    ensures Settled(c, a, chains, keys + {k})
  {
    forall l | 0 <= l < |chains| ensures KeysAre(a, chains[l], LevelSet(c, keys + {k}, l)) {
      assert LevelSet(c, keys, l) + Extra(k, top, lvl, l) == LevelSet(c, keys + {k}, l);
    }
    forall l | 1 <= l < |chains| ensures RouteDown(a, chains, l) {
      assert RouteAt(a, chains, k, top, lvl, pend, l);
    }
  }

  // ---------------------------------------------------------------- leaf contents

  lemma LeafMatchInsert<P>(c: Config, a: Arena<P>, b: Arena<P>, ids: seq<nat>, i: nat, s: nat, k: int, e: Entry<P>,
                           vals: map<int, Entry<P>>)
    requires LeafMatch(c, a, ids, vals) && IsInsert(c, a, ids, i, s, k, e, b) && k != c.lo && k !in vals
    requires forall j :: 0 <= j < |ids| && j != i ==> ids[j] != ids[i]
    ensures LeafMatch(c, b, ids, vals[k := e])
  {
    forall j | 0 <= j < |ids| ensures ids[j] in b && LeafNodeMatch(c, b[ids[j]], vals[k := e]) {
      assert LeafNodeMatch(c, a[ids[j]], vals);
      if j == i {
        var n, m := a[ids[i]], b[ids[i]];
        forall t | 0 <= t < |m.keys| && t != s
          ensures if m.keys[t] == c.lo then m.entries[t].Val? && m.entries[t].dead
                  else m.keys[t] in vals && m.entries[t] == vals[m.keys[t]]
        {
          var t' := if t < s then t else t - 1;
          assert m.keys[t] == n.keys[t'] && m.entries[t] == n.entries[t'];
        }
      }
    }
  }

  lemma LeafMatchSplit<P>(c: Config, a: Arena<P>, b: Arena<P>, ids: seq<nat>, i: nat, at: nat, pk: seq<int>,
      pe: seq<Entry<P>>,
                          newId: nat, vals: map<int, Entry<P>>, vals': map<int, Entry<P>>)
    requires LeafMatch(c, a, ids, vals) && IsSplit(c, a, ids, 0, i, at, pk, pe, newId, b)
    requires if pk == [] then vals' == vals else pk[0] != c.lo && pk[0] !in vals && vals' == vals[pk[0] := pe[0]]
    ensures LeafMatch(c, b, SplitIds(ids, i, newId), vals')
  {
    var ids' := SplitIds(ids, i, newId);
    var n := a[ids[i]];
    assert LeafNodeMatch(c, n, vals);
    var r := b[newId];
    forall t | |pk| <= t < |r.keys|
      ensures if r.keys[t] == c.lo then r.entries[t].Val? && r.entries[t].dead
              else r.keys[t] in vals && r.entries[t] == vals[r.keys[t]]
    {
      var t' := t - |pk| + at;
      assert r.keys[t] == n.keys[t'] && r.entries[t] == n.entries[t'];
    }
    forall j | 0 <= j < |ids'| ensures ids'[j] in b && LeafNodeMatch(c, b[ids'[j]], vals') {
      if j != i && j != i + 1 {
        var j' := if j < i then j else j - 1;
        assert ids'[j] == ids[j'] && LeafNodeMatch(c, a[ids[j']], vals);
      }
    }
  }

  // ---------------------------------------------------------------- rewriting one leaf slot

  lemma SameKeysHasKey<P>(a: Arena<P>, b: Arena<P>, ids: seq<nat>, k: int)
    requires forall t :: 0 <= t < |ids| ==> ids[t] in a && ids[t] in b && b[ids[t]].keys == a[ids[t]].keys
    ensures HasKey(b, ids, k) <==> HasKey(a, ids, k)
  {}

  lemma SetEntryFacts<P>(c: Config, a: Arena<P>, b: Arena<P>, chains: seq<seq<nat>>, keys: set<int>, i: nat, j: nat,
      e: Entry<P>)
    requires Settled(c, a, chains, keys) && i < |chains[0]| && j < |a[chains[0][i]].keys| && e.Val?
    requires j < |a[chains[0][i]].entries|
    requires b == a[chains[0][i] := a[chains[0][i]].(entries := a[chains[0][i]].entries[j := e])]
    ensures OnlyLevel(a, b, 0) && ChainOK(c, b, chains[0], 0) && KeysAre(b, chains[0], LevelSet(c, keys, 0))
  {
    var ids := chains[0];
    forall t | 0 <= t < |ids| ensures LinkOK(c, b, ids, t) {
      assert LinkOK(c, a, ids, t);
    }
    forall k ensures HasKey(b, ids, k) <==> HasKey(a, ids, k) {
      SameKeysHasKey(a, b, ids, k);
    }
  }

  /** Changing payload or tombstone of one slot changes no chain, no level and no route. */
  lemma SetEntryKeeps<P>(c: Config, a: Arena<P>, b: Arena<P>, chains: seq<seq<nat>>, keys: set<int>, i: nat, j: nat,
      e: Entry<P>)
    requires Settled(c, a, chains, keys) && i < |chains[0]| && j < |a[chains[0][i]].keys| && e.Val?
    requires j < |a[chains[0][i]].entries|
    requires b == a[chains[0][i] := a[chains[0][i]].(entries := a[chains[0][i]].entries[j := e])]
    ensures Settled(c, b, chains, keys) && Evolves(a, b)
  {
    SetEntryFacts(c, a, b, chains, keys, i, j, e);
    var top := |chains| - 1;
    forall l | 0 <= l < |chains| ensures ChainOK(c, b, chains[l], l) && KeysAre(b, chains[l], LevelSet(c, keys, l)) {
      if l != 0 { ChainFrame(c, a, b, 0, chains[l], l, LevelSet(c, keys, l)); }
    }
    forall l | 1 <= l < |chains| ensures RouteDown(b, chains, l) {
      assert RouteDown(a, chains, l);
      RouteFrame(c, a, b, 0, chains[l], l, chains[l - 1], chains[l - 1], None, None);
    }
  }

  lemma LeafMatchSet<P>(c: Config, a: Arena<P>, b: Arena<P>, ids: seq<nat>, i: nat, j: nat, e: Entry<P>,
      vals: map<int, Entry<P>>)
    requires ChainOK(c, a, ids, 0) && LeafMatch(c, a, ids, vals) && i < |ids| && j < |a[ids[i]].keys|
    requires a[ids[i]].keys[j] != c.lo && b == a[ids[i] := a[ids[i]].(entries := a[ids[i]].entries[j := e])]
    ensures LeafMatch(c, b, ids, vals[a[ids[i]].keys[j] := e])
  {
    var k := a[ids[i]].keys[j];
    KeysInRange(c, a, ids, 0, i, k);
    LocateKey(c, a, ids, 0, i, k);
    forall t | 0 <= t < |ids| ensures ids[t] in b && LeafNodeMatch(c, b[ids[t]], vals[k := e]) {
      assert LeafNodeMatch(c, a[ids[t]], vals);
      if t != i {
        assert k !in a[ids[t]].keys;
      }
    }
  }

  // ---------------------------------------------------------------- a new empty level on top

  lemma NewLevel<P>(c: Config, b: Arena<P>, keys: set<int>, id: nat, n: nat)
    requires id in b && b[id].level == n && b[id].keys == [c.lo] && b[id].next == None && b[id].nextMin == c.hi
    requires |b[id].entries| == 1 && b[id].entries[0].Kid? && n > 0 && c.lo < c.hi && c.maxKeys > 0
    requires forall k :: k in keys ==> c.top(k) < n
    ensures ChainOK(c, b, [id], n) && KeysAre(b, [id], LevelSet(c, keys, n))
  {
    assert LinkOK(c, b, [id], 0);
    forall k ensures HasKey(b, [id], k) <==> k in LevelSet(c, keys, n) {
      if k == c.lo { assert [id][0] in b && k in b[[id][0]].keys; }
    }
  }

  lemma GrowRoutes<P>(c: Config, a: Arena<P>, b: Arena<P>, chains: seq<seq<nat>>, keys: set<int>, id: nat)
    requires Settled(c, a, chains, keys) && OnlyLevel(a, b, |chains|) && id in b
    requires b[id].keys == [c.lo] && b[id].entries == [Kid(chains[|chains| - 1][0])]
    ensures forall l :: 1 <= l < |chains| + 1 ==> RouteDown(b, chains + [[id]], l)
  {
    var n := |chains|;
    var chains' := chains + [[id]];
    forall l | 1 <= l < n + 1 ensures RouteDown(b, chains', l) {
      if l < n {
        assert RouteDown(a, chains, l);
        RouteFrame(c, a, b, n, chains[l], l, chains[l - 1], chains[l - 1], None, None);
      } else {
        assert chains'[l] == [id] && chains'[l - 1] == chains[n - 1];
        assert EntryOK(b, c.lo, Kid(chains[n - 1][0]), chains[n - 1], None);
      }
    }
  }

  lemma GrowKeeps<P>(c: Config, a: Arena<P>, b: Arena<P>, chains: seq<seq<nat>>, keys: set<int>, id: nat)
    requires Settled(c, a, chains, keys) && |chains| < c.maxHeight && c.maxKeys > 0 && id !in a && c.lo < c.hi
    requires forall k :: k in keys ==> c.top(k) < |chains|
    requires b == a[id := Node(|chains|, [c.lo], [Kid(chains[|chains| - 1][0])], None, c.hi)]
    ensures Settled(c, b, chains + [[id]], keys) && Evolves(a, b)
  {
    var n := |chains|;
    var chains' := chains + [[id]];
    assert OnlyLevel(a, b, n);
    NewLevel(c, b, keys, id, n);
    forall l | 0 <= l < n + 1 ensures ChainOK(c, b, chains'[l], l) && KeysAre(b, chains'[l], LevelSet(c, keys, l)) {
      if l < n { ChainFrame(c, a, b, n, chains[l], l, LevelSet(c, keys, l)); }
    }
    GrowRoutes(c, a, b, chains, keys, id);
  }
}
