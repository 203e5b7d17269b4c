/** What the invariant of the list means, said without its own vocabulary, and how the nodes of the
    linked model are stored in the fixed arrays and tombstone words of BSkipNodes. */
module BSkipFacts {
  import opened Options
  import opened BSkipNodes
  import opened BSkipShape
  import opened BSkipLevels
  import opened BSkipList

  /** Every key ever inserted, live or tombstoned, stands in exactly one node of each of the levels 0 to
      its own level and nowhere above; no level holds anything else. */
  lemma KeyOnItsLevels<P>(l: BSkipList<P>, k: int, lvl: nat)
    requires l.Valid() && k != l.c.lo && lvl < |l.chains|
    ensures k in l.vals && lvl <= l.c.top(k) ==>
              exists i :: 0 <= i < |l.chains[lvl]| && k in l.nodes[l.chains[lvl][i]].keys
    ensures forall i, j :: (0 <= i < |l.chains[lvl]| && 0 <= j < |l.chains[lvl]|
                            && k in l.nodes[l.chains[lvl][i]].keys && k in l.nodes[l.chains[lvl][j]].keys) ==> i == j
    ensures !(k in l.vals && lvl <= l.c.top(k)) ==>
              forall i :: 0 <= i < |l.chains[lvl]| ==> k !in l.nodes[l.chains[lvl][i]].keys
  {
    var ids := l.chains[lvl];
    assert ChainOK(l.c, l.nodes, ids, lvl);
    assert KeysAre(l.nodes, ids, LevelSet(l.c, l.vals.Keys, lvl));
    assert HasKey(l.nodes, ids, k) <==> k in LevelSet(l.c, l.vals.Keys, lvl);
    forall i | 0 <= i < |ids| && k in l.nodes[ids[i]].keys
      ensures forall j :: 0 <= j < |ids| && k in l.nodes[ids[j]].keys ==> i == j
    {
      KeysInRange(l.c, l.nodes, ids, lvl, i, k);
      LocateKey(l.c, l.nodes, ids, lvl, i, k);
    }
  }

  /** Read from left to right, each level is strictly ascending, within nodes and across them. */
  lemma LevelAscends<P>(l: BSkipList<P>, lvl: nat, i: nat, s: nat, j: nat, t: nat)
    requires l.Valid() && lvl < |l.chains| && i < |l.chains[lvl]| && j < |l.chains[lvl]|
    requires s < |l.nodes[l.chains[lvl][i]].keys| && t < |l.nodes[l.chains[lvl][j]].keys|
    requires i < j || (i == j && s < t)
    ensures l.nodes[l.chains[lvl][i]].keys[s] < l.nodes[l.chains[lvl][j]].keys[t]
  {
    var ids := l.chains[lvl];
    assert ChainOK(l.c, l.nodes, ids, lvl);
    if i < j {
      FirstIsLeast(l.nodes[ids[i]].keys, s);
      FirstIsLeast(l.nodes[ids[j]].keys, t);
      ChainOrder(l.c, l.nodes, ids, lvl, i, j);
    }
  }

  /** nextMin is the minimum of the node next points at, or the upper sentinel at the end; no node is
      over-full; and a routing entry leads one level down to the node that starts with its key. */
  lemma NodeFacts<P>(l: BSkipList<P>, lvl: nat, i: nat)
    requires l.Valid() && lvl < |l.chains| && i < |l.chains[lvl]|
    ensures l.chains[lvl][i] in l.nodes
    ensures var n := l.nodes[l.chains[lvl][i]];
      && n.level == lvl && 1 <= |n.keys| == |n.entries| <= l.c.maxKeys
      && (match n.next
          case None => n.nextMin == l.c.hi && i + 1 == |l.chains[lvl]|
          case Some(m) =>
            && m in l.nodes && l.nodes[m].level == lvl && |l.nodes[m].keys| > 0
            && n.nextMin == l.nodes[m].keys[0])
      && (lvl > 0 ==> forall s :: 0 <= s < |n.keys| ==>
            && n.entries[s].Kid? && n.entries[s].id in l.nodes
            && var m := l.nodes[n.entries[s].id]; m.level == lvl - 1 && |m.keys| > 0 && m.keys[0] == n.keys[s])
  {
    var ids := l.chains[lvl];
    assert ChainOK(l.c, l.nodes, ids, lvl) && LinkOK(l.c, l.nodes, ids, i);
    var n := l.nodes[ids[i]];
    if lvl > 0 {
      forall s | 0 <= s < |n.keys|
        ensures n.entries[s].Kid? && n.entries[s].id in l.nodes
        ensures var m := l.nodes[n.entries[s].id]; m.level == lvl - 1 && |m.keys| > 0 && m.keys[0] == n.keys[s]
      {
        var j := SettledChild(l.c, l.nodes, l.chains, l.vals.Keys, lvl, i, s);
        assert ChainOK(l.c, l.nodes, l.chains[lvl - 1], lvl - 1);
      }
    }
  }

  /** size() is the number of live keys. */
  lemma SizeCountsLive<P>(l: BSkipList<P>)
    requires l.Valid()
    ensures l.size == |l.Contents()| && l.Contents().Keys == LiveKeys(l.vals)
  {
    SizeIsCount(l.vals);
  }

  // ---------------------------------------------------------------- storage of a leaf

  /** The slots of a leaf of the linked model, as LeafNode.Slots gives them for the arrays. */
  ghost function SlotsOf<P>(keys: seq<int>, entries: seq<Entry<P>>): seq<Slot<P>>
    requires |keys| == |entries| && forall j :: 0 <= j < |entries| ==> entries[j].Val?
  {
    seq(|keys|, j requires 0 <= j < |keys| => Slot(keys[j], entries[j].payload, entries[j].dead))
  }

  /** Entering a key is what LeafNode.InsertKeyAtSlot does to the slots. */
  lemma InsertMatchesStorage<P>(n: Node<P>, s: nat, k: int, p: P)
    requires s <= |n.keys| == |n.entries| && forall j :: 0 <= j < |n.entries| ==> n.entries[j].Val?
    ensures var m := InsertAt(n, s, k, Val(p, false));
            SlotsOf(m.keys, m.entries) ==
            SlotsOf(n.keys, n.entries)[..s] + [Slot(k, p, false)] + SlotsOf(n.keys, n.entries)[s..]
  {}

  /** Splitting is what LeafNode.SplitKeys does, behind the promoted key if there is one. */
  lemma SplitMatchesStorage<P>(n: Node<P>, at: nat, pk: seq<int>, pe: seq<Entry<P>>, id: nat, min: int)
    requires at <= |n.keys| == |n.entries| && forall j :: 0 <= j < |n.entries| ==> n.entries[j].Val?
    requires |pk| == |pe| <= 1 && forall j :: 0 <= j < |pe| ==> pe[j].Val?
    ensures var (m, r) := (LeftPart(n, at, id, min), RightPart(n, at, pk, pe));
            && SlotsOf(m.keys, m.entries) == SlotsOf(n.keys, n.entries)[..at]
            && SlotsOf(r.keys, r.entries) == SlotsOf(pk, pe) + SlotsOf(n.keys, n.entries)[at..]
  {
    var r := RightPart(n, at, pk, pe);
    assert SlotsOf(r.keys, r.entries) == SlotsOf(pk, pe) + SlotsOf(n.keys, n.entries)[at..];
  }

  /** Reviving, removing or updating a key is what ClearTombstone, SetTombstone and a store of the payload do. */
  lemma SetMatchesStorage<P>(n: Node<P>, s: nat, p: P, dead: bool)
    requires s < |n.keys| == |n.entries| && forall j :: 0 <= j < |n.entries| ==> n.entries[j].Val?
    ensures SlotsOf(n.keys, n.entries[s := Val(p, dead)]) == SlotsOf(n.keys, n.entries)[s := Slot(n.keys[s], p, dead)]
  {}

  // ---------------------------------------------------------------- storage of an internal node

  ghost function KidsOf<P>(entries: seq<Entry<P>>): seq<nat>
    requires forall j :: 0 <= j < |entries| ==> entries[j].Kid?
  {
    seq(|entries|, j requires 0 <= j < |entries| => entries[j].id)
  }

  /** Entering a routing entry is what InternalNode.InsertEntry does to the two arrays. */
  lemma EntryMatchesStorage<P>(n: Node<P>, s: nat, k: int, child: nat)
    requires s <= |n.keys| == |n.entries| && forall j :: 0 <= j < |n.entries| ==> n.entries[j].Kid?
    ensures var m := InsertAt(n, s, k, Kid(child));
            && m.keys == n.keys[..s] + [k] + n.keys[s..]
            && KidsOf(m.entries) == KidsOf(n.entries)[..s] + [child] + KidsOf(n.entries)[s..]
  {}

  /** Splitting an internal node is what InternalNode.SplitKeysAndChildren does to the two arrays. */
  lemma EntriesSplitMatchesStorage<P>(n: Node<P>, at: nat, pk: seq<int>, pe: seq<Entry<P>>, id: nat, min: int)
    requires at <= |n.keys| == |n.entries| && forall j :: 0 <= j < |n.entries| ==> n.entries[j].Kid?
    requires |pk| == |pe| <= 1 && forall j :: 0 <= j < |pe| ==> pe[j].Kid?
    ensures var (m, r) := (LeftPart(n, at, id, min), RightPart(n, at, pk, pe));
            && m.keys == n.keys[..at] && r.keys == pk + n.keys[at..]
            && KidsOf(m.entries) == KidsOf(n.entries)[..at] && KidsOf(r.entries) == KidsOf(pe) + KidsOf(n.entries)[at..]
  {
    var r := RightPart(n, at, pk, pe);
    assert KidsOf(r.entries) == KidsOf(pe) + KidsOf(n.entries)[at..];
  }
}
