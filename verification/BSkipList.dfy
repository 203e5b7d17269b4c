/** ConcurrentBSkipList as a sequential object: insert, remove, update, find and height growth over the
    linked nodes, each proved to keep the shape and to act on the finite map the list stands for. */
module BSkipList {
  import opened Options
  import opened BSkipNodes
  import opened BSkipShape
  import opened BSkipLevels

  /** BSkipInsertOutcome. */
  datatype Outcome = Inserted | Revived | Updated | AlreadyPresent

  /** An updater sees the key and the current payload, if any, and leaves a payload or nothing. */
  type Updater<!P> = (int, Option<P>) -> Option<P>

  function OrBlank<P>(p: Option<P>, blank: P): P {
    match p case Some(v) => v case None => blank
  }

  /** All slots with a user key, dead or alive, as a map from key to slot contents. */
  type Vals<P> = map<int, Entry<P>>

  ghost function LiveKeys<P>(vals: Vals<P>): set<int> {
    set k | k in vals && vals[k].Val? && !vals[k].dead
  }

  /** The finite map the list stands for. */
  ghost function LiveMap<P>(vals: Vals<P>): map<int, P> {
    map k | k in LiveKeys(vals) :: vals[k].payload
  }

  ghost predicate TreeOK<P>(c: Config, a: Arena<P>, headers: seq<nat>, chains: seq<seq<nat>>, vals: Vals<P>) {
    && c.Valid()
    && Settled(c, a, chains, vals.Keys)
    && HeadersOK(headers, chains)
    && ValsOK(c, chains, vals)
    && LeafMatch(c, a, chains[0], vals)
    && Linked(a, chains)
  }

  /** Every node is linked into the chain of its level. */
  ghost predicate Linked<P>(a: Arena<P>, chains: seq<seq<nat>>) {
    forall id :: id in a ==> InLevel(chains, a[id].level, id)
  }

  ghost predicate InLevel(chains: seq<seq<nat>>, l: nat, id: nat) {
    l < |chains| && id in chains[l]
  }

  ghost predicate FreshFrom<P>(a: Arena<P>, nextId: nat) {
    forall id :: id in a ==> id < nextId
  }

  class BSkipList<P> {
    const c: Config
    const blank: P                  // a default-constructed payload
    var nodes: Arena<P>
    var headers: seq<nat>           // headers_[0..height_)
    var size: int
    var nextId: nat                 // identities not yet handed out by the allocator
    ghost var chains: seq<seq<nat>>
    ghost var vals: Vals<P>

    ghost predicate Valid()
      reads this
    {
      TreeOK(c, nodes, headers, chains, vals) && FreshFrom(nodes, nextId) && size == |LiveKeys(vals)|
    }

    ghost function Contents(): map<int, P>
      reads this
    {
      LiveMap(vals)
    }

    constructor (c: Config, blank: P)
      requires c.Valid()
      ensures Valid() && Contents() == map[] && this.c == c && this.blank == blank
    {
      this.c, this.blank := c, blank;
      nodes := map[0 := Node(0, [c.lo], [Val(blank, true)], None, c.hi)];
      headers, size, nextId := [0], 0, 1;
      chains, vals := [[0]], map[];
      new;
      assert LinkOK(c, nodes, [0], 0);
      forall k ensures HasKey(nodes, [0], k) <==> k in LevelSet(c, {}, 0) {
        if k == c.lo { assert [0][0] in nodes && k in nodes[[0][0]].keys; }
      }
    }

    /** Moves right past every node whose successor starts at or below k. */
    method CrabRight(start: nat, k: int, ghost l: nat, ghost i: nat) returns (id: nat, ghost j: nat)
      requires l < |chains| && ChainOK(c, nodes, chains[l], l) && i < |chains[l]| && start == chains[l][i]
      requires nodes[start].keys[0] <= k
      ensures j < |chains[l]| && id == chains[l][j] && nodes[id].keys[0] <= k
      ensures k < nodes[id].nextMin || (nodes[id].next == None && k >= c.hi)
    {
      id, j := start, i;
      while k >= nodes[id].nextMin
        invariant j < |chains[l]| && id == chains[l][j] && nodes[id].keys[0] <= k
        decreases |chains[l]| - j
      {
        assert LinkOK(c, nodes, chains[l], j);
        match nodes[id].next
        case None => break;
        case Some(n) => id, j := n, j + 1;
      }
    }

    /** splitOffPromotedSibling: below the top level, key heads a new node that takes over everything after it. */
    method SplitOffPromotedSibling(curr: nat, level: nat, key: int, topLevel: nat, base: nat, sibling: nat, child: nat,
                                   at: nat, ghost i: nat, ghost below: int)
      requires 0 < level < topLevel && below == level - 1 &&
          InsertOK(c, nodes, headers, chains, vals, key, base, topLevel, level, sibling)
      requires i < |chains[level]| && curr == chains[level][i] && curr in nodes && NodeOK(c, nodes[curr], level)
      requires Fits(nodes[curr], at, key) && child == sibling + 1
      modifies this`nodes, this`chains
      ensures InsertOK(c, nodes, headers, chains, vals, key, base, topLevel, below, child) && Evolves(old(nodes), nodes)
      ensures |chains| == old(|chains|) && forall l :: 0 <= l < |chains| && l != level ==> chains[l] == old(chains[l])
    {
      hide Evolves, LeafMatch, Ascending, KeysAre, Linked;
      ghost var a, chains' := nodes, chains[level := SplitIds(chains[level], i, sibling)];
      var n := nodes[curr];
      nodes := nodes[curr := LeftPart(n, at, sibling, key)][sibling := RightPart(n, at, [key], [Kid(child)])];
      InsertPromotes(c, a, nodes, headers, chains, vals, key, base, topLevel, level, sibling, i, at, below, child,
          chains');
      chains := chains';
    }

    /** Key and its future child enter the target node, which has room. */
    method AppendPromotedAtTopLevel(target: nat, level: nat, key: int, base: nat, s: nat, ghost i: nat,
        ghost below: int)
      requires 0 < level < |chains| && below == level - 1 && EnterOK(c, nodes, headers, chains, vals, key, base, level)
      requires i < |chains[level]| && target == chains[level][i] && target in nodes && NodeOK(c, nodes[target], level)
      requires |nodes[target].keys| < c.maxKeys && Fits(nodes[target], s, key)
      modifies this`nodes
      ensures InsertOK(c, nodes, headers, chains, vals, key, base, level, below, base) && Evolves(old(nodes), nodes)
    {
      ghost var a := nodes;
      nodes := nodes[target := InsertAt(nodes[target], s, key, Kid(base))];
      InsertEntersTop(c, a, nodes, headers, chains, vals, key, base, level, below, i, s);
    }

    /** splitKeysAndPublish on a full node of the top level, and which half takes the key, at which slot. */
    method HalveTop(curr: nat, level: nat, key: int, base: nat, sibling: nat, slot: nat, ghost i: nat)
      returns (target: nat, ghost at: nat, s: nat)
      requires level < |chains| && EnterOK(c, nodes, headers, chains, vals, key, base, level) &&
          sibling == base + level && sibling !in nodes
      requires i < |chains[level]| && curr == chains[level][i] && curr in nodes && NodeOK(c, nodes[curr], level)
      requires |nodes[curr].keys| == c.maxKeys && Fits(nodes[curr], slot, key)
      modifies this`nodes, this`chains
      ensures EnterOK(c, nodes, headers, chains, vals, key, base, level) && Evolves(old(nodes), nodes)
      ensures |chains| == old(|chains|) && forall l :: 0 <= l < |chains| && l != level ==> chains[l] == old(chains[l])
      ensures at < |chains[level]| && target == chains[level][at] && target in nodes && NodeOK(c, nodes[target], level)
      ensures |nodes[target].keys| < c.maxKeys && Fits(nodes[target], s, key)
    {
      hide EnterOK, Evolves, SplitIds, ChainOK, CanSplit, Fits, Ascending;
      var n := nodes[curr];
      var half := |n.keys| / 2;
      EnterFacts(c, nodes, headers, chains, vals, key, base, level);
      FitsAfterHalving(c, n, level, slot, key, sibling);
      ghost var a, chains' := nodes, chains[level := SplitIds(chains[level], i, sibling)];
      nodes := nodes[curr := LeftPart(n, half, sibling, n.keys[half])][sibling := RightPart(n, half, [], [])];
      InsertHalvesTop(c, a, nodes, headers, chains, vals, key, base, level, i, half, sibling, chains');
      chains := chains';
      SplitIdsAt(old(chains[level]), i, sibling);
      if slot <= half {
        target, at, s := curr, i, slot;
      } else {
        target, at, s := sibling, i + 1, slot - half;
      }
    }

    /** Adds empty levels on top until there are more than the given one. */
    method EnsureHeightAbove(level: nat)
      requires Valid() && level < c.maxHeight
      modifies this`nodes, this`headers, this`chains, this`nextId
      ensures Valid() && Evolves(old(nodes), nodes) && level < |chains|
    {
      hide TreeOK, Evolves, LiveKeys;
      EvolvesRefl(nodes);
      HeaderFacts(c, nodes, headers, chains, vals, 0);
      while |headers| <= level
        invariant Valid() && Evolves(old(nodes), nodes) && |headers| == |chains| > 0
        decreases c.maxHeight - |headers|
      {
        var height := |headers|;
        var sentinel := nextId;
        ghost var a := nodes;
        nodes := nodes[sentinel := Node(height, [c.lo], [Kid(headers[height - 1])], None, c.hi)];
        GrowTree(c, a, nodes, headers, chains, vals, sentinel);
        EvolvesTransitive(old(nodes), a, nodes);
        headers := headers + [sentinel];
        chains := chains + [[sentinel]];
        nextId := nextId + 1;
      }
    }

    /** Writes payload and tombstone of one slot of a leaf. */
    method StoreSlot(leaf: nat, slot: nat, key: int, payload: P, dead: bool, ghost i: nat)
      requires TreeOK(c, nodes, headers, chains, vals) && i < |chains[0]| && leaf == chains[0][i]
      requires slot < |nodes[leaf].keys| && key == nodes[leaf].keys[slot] != c.lo
      modifies this`nodes, this`vals
      ensures vals == old(vals)[key := Val(payload, dead)] && TreeOK(c, nodes, headers, chains, vals)
      ensures nodes.Keys == old(nodes.Keys) && Evolves(old(nodes), nodes)
    {
      hide TreeOK, Evolves;
      SlotValue(c, nodes, headers, chains, vals, i, leaf, slot, key);
      ghost var a, e := nodes, Val(payload, dead);
      var n := nodes[leaf];
      nodes := nodes[leaf := n.(entries := n.entries[slot := Val(payload, dead)])];
      SetSlot(c, a, nodes, headers, chains, vals, i, slot, leaf, key, e);
      vals := vals[key := e];
    }

    /** insertOrUpdateAtLeaf: the key is in this slot, dead or alive. */
    method InsertOrUpdateAtLeaf(leaf: nat, slot: nat, key: int, orUpdate: bool, updater: Option<Updater<P>>,
        ghost i: nat)
      returns (outcome: Outcome)
      requires Valid() && i < |chains[0]| && leaf == chains[0][i]
      requires slot < |nodes[leaf].keys| && key == nodes[leaf].keys[slot] != c.lo
      modifies this`nodes, this`vals, this`size
      ensures Valid() && Evolves(old(nodes), nodes)
      ensures Inserts(blank, orUpdate, key, updater, old(vals), vals, outcome)
    {
      hide TreeOK, Evolves;
      SlotValue(c, nodes, headers, chains, vals, i, leaf, slot, key);
      SetLive(vals, key, blank);
      var e := nodes[leaf].entries[slot];
      if e.dead {
        var p := OrBlank(Apply(updater, key, None), blank);
        SetLive(vals, key, p);
        StoreSlot(leaf, slot, key, p, false, i);
        size := size + 1;
        return Revived;
      }
      if orUpdate && updater.Some? {
        var p := OrBlank(Apply(updater, key, Some(e.payload)), blank);
        SetLive(vals, key, p);
        StoreSlot(leaf, slot, key, p, false, i);
        return Updated;
      }
      EvolvesRefl(nodes);
      return AlreadyPresent;
    }

    /** From a routing entry equal to key, follows first children down to the leaf that key heads. */
    method DescendPromotedToLeaf(start: nat, startLevel: nat, startSlot: nat, key: int,
        ghost i0: nat) returns (leaf: nat, ghost i: nat)
      requires TreeOK(c, nodes, headers, chains, vals) && 0 < startLevel < |chains| && i0 < |chains[startLevel]|
      requires start == chains[startLevel][i0] && start in nodes && startSlot < |nodes[start].keys| &&
          nodes[start].keys[startSlot] == key
      ensures i < |chains[0]| && leaf == chains[0][i] && |nodes[leaf].keys| > 0 && nodes[leaf].keys[0] == key
    {
      hide TreeOK;
      var level: nat, slot: nat := startLevel, startSlot;
      leaf, i := start, i0;
      while level > 0
        invariant level < |chains| && i < |chains[level]| && leaf == chains[level][i]
        invariant leaf in nodes && slot < |nodes[leaf].keys| && nodes[leaf].keys[slot] == key
        invariant level == 0 ==> slot == 0
      {
        ghost var below: nat := level - 1;
        ghost var j := TreeChild(c, nodes, headers, chains, vals, level, i, slot, below);
        leaf, i, level, slot := nodes[leaf].entries[slot].id, j, level - 1, 0;
      }
    }

    /** Crabs to the node of this level that covers key and finds the slot of key or of its predecessor. */
    method LocateAtLevel(start: nat, level: nat, key: int, ghost i0: nat, ghost base: nat, ghost topLevel: nat,
        ghost pend: nat)
      returns (curr: nat, slot: nat, found: bool, ghost i: nat)
      requires InsertOK(c, nodes, headers, chains, vals, key, base, topLevel, level, pend)
      requires i0 < |chains[level]| && start == chains[level][i0] && start in nodes && |nodes[start].keys| > 0 &&
          nodes[start].keys[0] <= key
      ensures i < |chains[level]| && curr == chains[level][i] && curr in nodes && NodeOK(c, nodes[curr], level)
      ensures slot < |nodes[curr].keys|
      ensures found <==> key in vals && topLevel >= level
      ensures if found then nodes[curr].keys[slot] == key else Fits(nodes[curr], slot + 1, key)
      ensures nodes[curr].keys[slot] <= key
    {
      curr, i := CrabRight(start, key, level, i0);
      slot, found := FindSlot(nodes[curr], key);
      FoundMeans(c, nodes, chains, vals.Keys, key, topLevel, level, pend, i);
      if !found { FitsHere(c, nodes[curr], level, slot, key); }
    }

    /** insertAtInternalLevel for a key that is not here: leave the level alone above the top level of key,
        enter key at it, start the sibling headed by key below it; then go on with the predecessor child. */
    method InsertAtInternalLevel(curr: nat, level: nat, key: int, topLevel: nat, base: nat, pend: nat, slot': nat,
                                 ghost i: nat, ghost below: nat)
      returns (next: nat, pend': nat, ghost j: nat)
      requires 0 < level < |chains| && below == level - 1
      requires InsertOK(c, nodes, headers, chains, vals, key, base, topLevel, level, pend)
      requires i < |chains[level]| && curr == chains[level][i] && curr in nodes && NodeOK(c, nodes[curr], level)
      requires 0 < slot' <= |nodes[curr].keys| && nodes[curr].keys[slot' - 1] <= key && Fits(nodes[curr], slot', key)
      requires (level <= topLevel ==> key !in vals) && (level >= topLevel ==> pend == base)
      modifies this`nodes, this`chains
      ensures InsertOK(c, nodes, headers, chains, vals, key, base, topLevel, below, pend') && Evolves(old(nodes), nodes)
      ensures j < |chains[below]| && next == chains[below][j] && next in nodes && |nodes[next].keys| > 0 &&
          nodes[next].keys[0] <= key
      ensures |chains| == old(|chains|)
      ensures below >= topLevel ==> pend' == base && nodes == old(nodes) && chains == old(chains)
    {
      hide InsertOK, Evolves, Fits;
      j := ChildOf(c, nodes, headers, chains, vals, key, base, topLevel, level, pend, i, slot' - 1, below);
      next := nodes[curr].entries[slot' - 1].id;
      ghost var a := nodes;
      pend' := pend;
      if topLevel < level {
        InsertAbove(c, nodes, headers, chains, vals, key, base, topLevel, level, pend, below);
        EvolvesRefl(nodes);
      } else if topLevel == level {
        EnterAtTop(curr, level, key, base, slot', i, below);
      } else {
        pend' := pend + 1;
        SplitOffPromotedSibling(curr, level, key, topLevel, base, pend, pend', slot', i, below);
      }
      KeepsMin(a, nodes, next);
    }

    method EnterAtTop(curr: nat, level: nat, key: int, base: nat, slot: nat, ghost i: nat, ghost below: int)
      requires 0 < level < |chains| && below == level - 1 &&
          InsertOK(c, nodes, headers, chains, vals, key, base, level, level, base) && key !in vals
      requires i < |chains[level]| && curr == chains[level][i] && curr in nodes && NodeOK(c, nodes[curr], level) &&
          Fits(nodes[curr], slot, key)
      modifies this`nodes, this`chains
      ensures InsertOK(c, nodes, headers, chains, vals, key, base, level, below, base) && Evolves(old(nodes), nodes)
      ensures |chains| == old(|chains|) && forall l :: 0 <= l < |chains| && l != level ==> chains[l] == old(chains[l])
    {
      hide InsertOK, EnterOK, Evolves, Fits;
      var target, s, sibling := curr, slot, base + level;
      ghost var at := i;
      ReachTop(c, nodes, headers, chains, vals, key, base, level, sibling);
      EvolvesRefl(nodes);
      if |nodes[curr].keys| == c.maxKeys {
        target, at, s := HalveTop(curr, level, key, base, sibling, slot, i);
      }
      ghost var mid := nodes;
      AppendPromotedAtTopLevel(target, level, key, base, s, at, below);
      EvolvesTransitive(old(nodes), mid, nodes);
    }

    /** The leaf level for a key without tower. */
    method EnterAtLeaf(curr: nat, key: int, base: nat, slot: nat, payload: P, ghost i: nat, lvl: nat, ghost below: int)
      requires lvl == 0 < |chains| && below == -1 && InsertOK(c, nodes, headers, chains, vals, key, base, lvl, lvl,
          base) && key !in vals
      requires i < |chains[0]| && curr == chains[0][i] && curr in nodes && NodeOK(c, nodes[curr], 0) &&
          Fits(nodes[curr], slot, key)
      modifies this`nodes, this`chains
      ensures TreeOK(c, nodes, headers, chains, vals[key := Val(payload, false)])
      ensures Evolves(old(nodes), nodes) && FreshFrom(nodes, base + lvl + 1)
    {
      hide InsertOK, EnterOK, TreeOK, Evolves;
      var target, s := curr, slot;
      ghost var at := i;
      ReachTop(c, nodes, headers, chains, vals, key, base, lvl, base);
      EvolvesRefl(nodes);
      if |nodes[curr].keys| == c.maxKeys {
        target, at, s := HalveTop(curr, lvl, key, base, base, slot, i);
      }
      ghost var mid, e := nodes, Val(payload, false);
      nodes := nodes[target := InsertAt(nodes[target], s, key, Val(payload, false))];
      LeafEnter(c, mid, nodes, headers, chains, vals, key, base, at, s, e, lvl, below);
      EvolvesTransitive(old(nodes), mid, nodes);
    }

    /** The leaf level for a key with a tower: the new leaf is the last node of the tower. */
    method SplitOffPromotedLeaf(curr: nat, key: int, ghost topLevel: nat, ghost base: nat, pend: nat, slot: nat,
        payload: P,
                                ghost i: nat, ghost lvl: nat, ghost below: int)
      requires lvl == 0 < topLevel && below == -1 && InsertOK(c, nodes, headers, chains, vals, key, base, topLevel,
          lvl, pend)
      requires i < |chains[lvl]| && curr == chains[lvl][i] && curr in nodes && NodeOK(c, nodes[curr], lvl) &&
          Fits(nodes[curr], slot, key)
      modifies this`nodes, this`chains
      ensures TreeOK(c, nodes, headers, chains, vals[key := Val(payload, false)])
      ensures Evolves(old(nodes), nodes) && FreshFrom(nodes, base + topLevel + 1)
    {
      hide Evolves, LeafMatch, Ascending, KeysAre, Linked;
      ghost var a, e := nodes, Val(payload, false);
      ghost var chains' := chains[lvl := SplitIds(chains[lvl], i, pend)];
      var n := nodes[curr];
      nodes := nodes[curr := LeftPart(n, slot, pend, key)][pend := RightPart(n, slot, [key], [Val(payload, false)])];
      LeafPromote(c, a, nodes, headers, chains, vals, key, base, topLevel, pend, i, slot, e, lvl, below, chains');
      chains := chains';
    }

    /** insertImpl: descend from the top, enter key at its top level, build its tower on the way down. */
    method InsertImpl(orUpdate: bool, key: int, updater: Option<Updater<P>>) returns (outcome: Outcome)
      requires Valid() && c.lo < key < c.hi
      modifies this
      ensures Valid() && Evolves(old(nodes), nodes)
      ensures Inserts(blank, orUpdate, key, updater, old(vals), vals, outcome)
    {
      var topLevel := c.top(key);
      if topLevel >= |headers| { EnsureHeightAbove(topLevel); }
      ghost var grown := nodes;
      outcome := InsertDescend(orUpdate, key, topLevel, updater);
      EvolvesTransitive(old(nodes), grown, nodes);
    }

    method InsertDescend(orUpdate: bool, key: int, topLevel: nat,
        updater: Option<Updater<P>>) returns (outcome: Outcome)
      requires Valid() && c.lo < key < c.hi && topLevel == c.top(key) < |chains|
      modifies this
      ensures Valid() && Evolves(old(nodes), nodes)
      ensures Inserts(blank, orUpdate, key, updater, old(vals), vals, outcome)
    {
      hide InsertOK, TreeOK, Evolves, Inserts, LiveKeys, Fits;
      HeaderFacts(c, nodes, headers, chains, vals, |chains| - 1);
      var base: nat, pend: nat := nextId, nextId;
      nextId := nextId + topLevel + 1;
      var level: nat := |headers| - 1;
      var curr := headers[level];
      ghost var i: nat := 0;
      StartInsert(c, nodes, headers, chains, vals, key, base, topLevel, level);
      EvolvesRefl(nodes);
      while level > 0
        invariant level < |chains| && InsertOK(c, nodes, headers, chains, vals, key, base, topLevel, level, pend)
        invariant i < |chains[level]| && curr == chains[level][i] && curr in nodes && |nodes[curr].keys| > 0 &&
            nodes[curr].keys[0] <= key
        invariant level >= topLevel ==> pend == base && nodes == old(nodes) && chains == old(chains)
        invariant Evolves(old(nodes), nodes) && headers == old(headers)
        invariant vals == old(vals) && size == old(size) && nextId == base + topLevel + 1
      {
        ghost var below: nat, was := level - 1, nodes;
        var slot, found;
        curr, slot, found, i := LocateAtLevel(curr, level, key, i, base, topLevel, pend);
        if found {
          UnknownBelowTop(c, nodes, headers, chains, vals, key, base, topLevel, level, pend);
          var leaf;
          leaf, i := DescendPromotedToLeaf(curr, level, slot, key, i);
          outcome := InsertOrUpdateAtLeaf(leaf, 0, key, orUpdate, updater, i);
          return;
        }
        curr, pend, i := InsertAtInternalLevel(curr, level, key, topLevel, base, pend, slot + 1, i, below);
        EvolvesTransitive(old(nodes), was, nodes);
        level := level - 1;
      }
      outcome := InsertAtLeafLevel(curr, level, key, topLevel, base, pend, orUpdate, updater, i, old(nodes));
    }

    /** insertAtLeafLevel. */
    method InsertAtLeafLevel(start: nat, level: nat, key: int, topLevel: nat, base: nat, pend: nat,
                             orUpdate: bool, updater: Option<Updater<P>>, ghost i0: nat,
                                 ghost first: Arena<P>) returns (outcome: Outcome)
      requires level == 0 < |chains| && InsertOK(c, nodes, headers, chains, vals, key, base, topLevel, level, pend)
      requires i0 < |chains[level]| && start == chains[level][i0] && start in nodes && |nodes[start].keys| > 0 &&
          nodes[start].keys[0] <= key
      requires topLevel == 0 ==> pend == base && TreeOK(c, nodes, headers, chains, vals)
      requires size == |LiveKeys(vals)| && nextId == base + topLevel + 1 && Evolves(first, nodes)
      modifies this`nodes, this`chains, this`vals, this`size
      ensures Valid() && Evolves(first, nodes)
      ensures Inserts(blank, orUpdate, key, updater, old(vals), vals, outcome)
    {
      hide InsertOK, TreeOK, Evolves, LiveKeys, Fits;
      var curr, slot, found;
      ghost var i: nat, was, below := 0, nodes, -1;
      UnknownBelowTop(c, nodes, headers, chains, vals, key, base, topLevel, level, pend);
      curr, slot, found, i := LocateAtLevel(start, level, key, i0, base, topLevel, pend);
      if found {
        outcome := InsertOrUpdateAtLeaf(curr, slot, key, orUpdate, updater, i);
      } else {
        var p := OrBlank(Apply(updater, key, None), blank);
        SetLive(vals, key, p);
        if topLevel == 0 {
          EnterAtLeaf(curr, key, base, slot + 1, p, i, level, below);
        } else {
          SplitOffPromotedLeaf(curr, key, topLevel, base, pend, slot + 1, p, i, level, below);
        }
        vals := vals[key := Val(p, false)];
        size := size + 1;
        outcome := Inserted;
      }
      EvolvesTransitive(first, was, nodes);
    }

    /** traverseHohLeaf: descend from the top, crabbing right on every level, and look key up in the leaf. */
    method TraverseLeaf(key: int) returns (leaf: nat, slot: nat, exact: bool, ghost i: nat)
      requires Valid() && c.lo < key < c.hi
      ensures |chains| > 0 && i < |chains[0]| && leaf == chains[0][i] && leaf in nodes
      ensures slot < |nodes[leaf].keys| == |nodes[leaf].entries|
      ensures exact <==> key in vals
      ensures exact ==> nodes[leaf].keys[slot] == key && nodes[leaf].entries[slot] == vals[key] && vals[key].Val?
      ensures !exact ==> Fits(nodes[leaf], slot + 1, key)
    {
      hide TreeOK, Fits;
      HeaderFacts(c, nodes, headers, chains, vals, |chains| - 1);
      var level: nat := |headers| - 1;
      leaf, i := headers[level], 0;
      while level > 0
        invariant level < |chains| && i < |chains[level]| && leaf == chains[level][i]
        invariant leaf in nodes && |nodes[leaf].keys| > 0 && nodes[leaf].keys[0] <= key
      {
        LevelChain(c, nodes, headers, chains, vals, level);
        leaf, i := CrabRight(leaf, key, level, i);
        slot, exact := FindSlot(nodes[leaf], key);
        ghost var below: nat := level - 1;
        ghost var j := TreeChild(c, nodes, headers, chains, vals, level, i, slot, below);
        leaf, i, level := nodes[leaf].entries[slot].id, j, level - 1;
      }
      LevelChain(c, nodes, headers, chains, vals, level);
      leaf, i := CrabRight(leaf, key, level, i);
      slot, exact := FindSlot(nodes[leaf], key);
      LeafLookup(c, nodes, headers, chains, vals, i, leaf, slot, key, exact);
    }

    method Find(key: int) returns (r: Option<(int, P)>)
      requires Valid() && c.lo < key < c.hi
      ensures r == if key in Contents() then Some((key, Contents()[key])) else None
    {
      hide TreeOK, Fits;
      var leaf, slot, exact;
      ghost var i;
      leaf, slot, exact, i := TraverseLeaf(key);
      if !exact || nodes[leaf].entries[slot].dead { return None; }
      return Some((nodes[leaf].keys[slot], nodes[leaf].entries[slot].payload));
    }

    /** add without a payload. */
    method AddKey(key: int) returns (inserted: bool)
      requires Valid() && c.lo < key < c.hi
      modifies this
      ensures Valid() && Evolves(old(nodes), nodes)
      ensures inserted <==> key !in old(Contents())
      ensures Contents() == if inserted then old(Contents())[key := blank] else old(Contents())
    {
      hide TreeOK, Evolves;
      var outcome := InsertImpl(false, key, None);
      SetLive(old(vals), key, blank);
      inserted := outcome.Inserted? || outcome.Revived?;
    }

    /** add with a payload: a live key keeps the payload it has. */
    method Add(key: int, payload: P) returns (inserted: bool)
      requires Valid() && c.lo < key < c.hi
      modifies this
      ensures Valid() && Evolves(old(nodes), nodes)
      ensures inserted <==> key !in old(Contents())
      ensures Contents() == if inserted then old(Contents())[key := payload] else old(Contents())
    {
      hide TreeOK, Evolves;
      var setter: Updater<P> := (k, slot: Option<P>) => if slot.None? then Some(payload) else slot;
      var outcome := InsertImpl(false, key, Some(setter));
      SetLive(old(vals), key, payload);
      inserted := outcome.Inserted? || outcome.Revived?;
    }

    /** addOrUpdate: the updater sees the live payload or nothing; leaving nothing stores a default payload. */
    method AddOrUpdate(key: int, updater: Updater<P>) returns (inserted: bool)
      requires Valid() && c.lo < key < c.hi
      modifies this
      ensures Valid() && Evolves(old(nodes), nodes)
      ensures inserted <==> key !in old(Contents())
      ensures Contents() == old(Contents())[key := OrBlank(updater(key, Lookup(old(Contents()), key)), blank)]
    {
      hide TreeOK, Evolves;
      var outcome := InsertImpl(true, key, Some(updater));
      SetLive(old(vals), key, OrBlank(updater(key, Lookup(old(Contents()), key)), blank));
      inserted := outcome.Inserted? || outcome.Revived?;
    }

    /** remove and removeAndGetPayload: the slot stays, its tombstone is set. */
    method RemoveAndGetPayload(key: int) returns (r: Option<P>)
      requires Valid() && c.lo < key < c.hi
      modifies this`nodes, this`vals, this`size
      ensures Valid() && Evolves(old(nodes), nodes)
      ensures r == Lookup(old(Contents()), key)
      ensures Contents() == old(Contents()) - {key}
    {
      hide TreeOK, Evolves, Fits;
      EvolvesRefl(nodes);
      var leaf, slot, exact;
      ghost var i;
      leaf, slot, exact, i := TraverseLeaf(key);
      if !exact || nodes[leaf].entries[slot].dead {
        assert key !in LiveKeys(vals);
        return None;
      }
      var p := nodes[leaf].entries[slot].payload;
      SetDead(vals, key, p);
      StoreSlot(leaf, slot, key, p, true, i);
      size := size - 1;
      return Some(p);
    }

    method Remove(key: int) returns (removed: bool)
      requires Valid() && c.lo < key < c.hi
      modifies this`nodes, this`vals, this`size
      ensures Valid() && Evolves(old(nodes), nodes)
      ensures removed <==> key in old(Contents())
      ensures Contents() == old(Contents()) - {key}
    {
      hide TreeOK, Evolves;
      var r := RemoveAndGetPayload(key);
      return r.Some?;
    }

    /** updatePayload: only a live key is updated. */
    method UpdatePayload(key: int, update: (int, P) -> P) returns (updated: bool)
      requires Valid() && c.lo < key < c.hi
      modifies this`nodes, this`vals, this`size
      ensures Valid() && Evolves(old(nodes), nodes) && size == old(size)
      ensures updated <==> key in old(Contents())
      ensures Contents() == if updated then old(Contents())[key := update(key, old(Contents())[key])]
          else old(Contents())
    {
      hide TreeOK, Evolves, Fits;
      EvolvesRefl(nodes);
      var leaf, slot, exact;
      ghost var i;
      leaf, slot, exact, i := TraverseLeaf(key);
      if !exact || nodes[leaf].entries[slot].dead { return false; }
      var p := update(nodes[leaf].keys[slot], nodes[leaf].entries[slot].payload);
      SetLive(vals, key, p);
      StoreSlot(leaf, slot, key, p, false, i);
      return true;
    }

    method Empty() returns (r: bool)
      requires Valid()
      ensures r <==> Contents() == map[]
    {
      hide TreeOK;
      SizeIsCount(vals);
      return size == 0;
    }
  }

  lemma SizeIsCount<P>(vals: Vals<P>)
    ensures LiveMap(vals).Keys == LiveKeys(vals) && |LiveMap(vals)| == |LiveKeys(vals)|
  {}

  function Lookup<K, P>(m: map<K, P>, k: K): Option<P> {
    if k in m then Some(m[k]) else None
  }

  lemma LevelChain<P>(c: Config, a: Arena<P>, headers: seq<nat>, chains: seq<seq<nat>>, vals: Vals<P>, l: nat)
    requires TreeOK(c, a, headers, chains, vals) && l < |chains|
    ensures ChainOK(c, a, chains[l], l)
  {}

  lemma TreeChild<P>(c: Config, a: Arena<P>, headers: seq<nat>, chains: seq<seq<nat>>, vals: Vals<P>, lvl: nat,
      i: nat, slot: nat, below: nat)
    returns (j: nat)
    requires TreeOK(c, a, headers, chains, vals) && 0 < lvl < |chains| && below == lvl - 1
    requires i < |chains[lvl]| && slot < |a[chains[lvl][i]].keys|
    ensures slot < |a[chains[lvl][i]].entries|
    ensures var e := a[chains[lvl][i]].entries[slot];
            && e.Kid? && j < |chains[below]| && chains[below][j] == e.id
            && e.id in a && |a[e.id].keys| > 0 && a[e.id].keys[0] == a[chains[lvl][i]].keys[slot]
  {
    hide KeysAre, LeafMatch, ValsOK, HeadersOK;
    j := SettledChild(c, a, chains, vals.Keys, lvl, i, slot);
  }

  /** In the leaf covering key, key has a slot exactly if the list knows it, and the slot holds its value. */
  lemma LeafLookup<P>(c: Config, a: Arena<P>, headers: seq<nat>, chains: seq<seq<nat>>, vals: Vals<P>, i: nat,
      leaf: nat, slot: nat,
                      key: int, exact: bool)
    requires TreeOK(c, a, headers, chains, vals) && i < |chains[0]| && leaf == chains[0][i] && c.lo < key
    requires slot < |a[leaf].keys| && a[leaf].keys[0] <= a[leaf].keys[slot] <= key < a[leaf].nextMin
    requires slot + 1 < |a[leaf].keys| ==> key < a[leaf].keys[slot + 1]
    requires exact <==> key in a[leaf].keys
    requires exact ==> a[leaf].keys[slot] == key
    ensures leaf in a && |a[leaf].keys| == |a[leaf].entries| && (exact <==> key in vals)
    ensures exact ==> a[leaf].entries[slot] == vals[key] && vals[key].Val?
    ensures !exact ==> Fits(a[leaf], slot + 1, key)
  {
    hide RouteDown;
    LocateKey(c, a, chains[0], 0, i, key);
    assert HasKey(a, chains[0], key) <==> key in LevelSet(c, vals.Keys, 0);
    assert LeafNodeMatch(c, a[leaf], vals);
  }

  // ---------------------------------------------------------------- steps of the methods above

  lemma EvolvesRefl<P>(a: Arena<P>)
    ensures Evolves(a, a)
  {}

  lemma KeepsMin<P>(a: Arena<P>, b: Arena<P>, id: nat)
    requires Evolves(a, b) && id in a && |a[id].keys| > 0
    ensures id in b && |b[id].keys| > 0 && b[id].keys[0] == a[id].keys[0]
  {}

  lemma SlotValue<P>(c: Config, a: Arena<P>, headers: seq<nat>, chains: seq<seq<nat>>, vals: Vals<P>, i: nat,
      leaf: nat, slot: nat, key: int)
    requires TreeOK(c, a, headers, chains, vals) && i < |chains[0]| && leaf == chains[0][i]
    requires slot < |a[leaf].keys| && key == a[leaf].keys[slot] && key != c.lo
    ensures leaf in a && |a[leaf].entries| == |a[leaf].keys| && key in vals && a[leaf].entries[slot] == vals[key] &&
        vals[key].Val?
  {
    assert LeafNodeMatch(c, a[leaf], vals);
  }

  lemma SplitIdsAt(ids: seq<nat>, i: nat, newId: nat)
    requires i < |ids|
    ensures |SplitIds(ids, i, newId)| == |ids| + 1
    ensures SplitIds(ids, i, newId)[i] == ids[i] && SplitIds(ids, i, newId)[i + 1] == newId
  {}

  lemma HeaderFacts<P>(c: Config, a: Arena<P>, headers: seq<nat>, chains: seq<seq<nat>>, vals: Vals<P>, l: int)
    requires TreeOK(c, a, headers, chains, vals)
    ensures 1 <= |headers| == |chains| <= c.maxHeight
    ensures 0 <= l < |chains| ==>
              && |chains[l]| > 0 && headers[l] == chains[l][0] && headers[l] in a
              && |a[headers[l]].keys| > 0 && a[headers[l]].keys[0] == c.lo
  {
    if 0 <= l < |chains| { assert ChainOK(c, a, chains[l], l); }
  }

  lemma EnterFacts<P>(c: Config, a: Arena<P>, headers: seq<nat>, chains: seq<seq<nat>>, vals: Vals<P>, key: int,
      base: nat, top: nat)
    requires EnterOK(c, a, headers, chains, vals, key, base, top)
    ensures c.maxKeys >= 2 && top < |chains| && ChainOK(c, a, chains[top], top) && ChainOK(c, a, chains[0], 0)
  {}

  lemma SplitAdds<P>(c: Config, a: Arena<P>, ids: seq<nat>, l: nat, i: nat, at: nat, pk: seq<int>, pe: seq<Entry<P>>,
      newId: nat, b: Arena<P>)
    requires IsSplit(c, a, ids, l, i, at, pk, pe, newId, b)
    ensures i < |ids| && b.Keys == a.Keys + {newId}
  {}

  lemma ReachTop<P>(c: Config, a: Arena<P>, headers: seq<nat>, chains: seq<seq<nat>>, vals: Vals<P>, key: int,
      base: nat, top: nat, sib: nat)
    requires InsertOK(c, a, headers, chains, vals, key, base, top, top, base) && key !in vals && sib == base + top
    ensures EnterOK(c, a, headers, chains, vals, key, base, top) && sib !in a
  {}

  lemma UnknownBelowTop<P>(c: Config, a: Arena<P>, headers: seq<nat>, chains: seq<seq<nat>>, vals: Vals<P>, key: int,
      base: nat, top: nat,
                          lvl: nat, pend: nat)
    requires InsertOK(c, a, headers, chains, vals, key, base, top, lvl, pend)
    ensures (lvl < top ==> key !in vals) && FreshFrom(a, base + top + 1) && c.lo < key
  {}

  function Apply<P>(updater: Option<Updater<P>>, key: int, slot: Option<P>): Option<P> {
    match updater case Some(f) => f(key, slot) case None => slot
  }

  /** What an insert of key does to the slots, and which outcome it reports. */
  ghost predicate Inserts<P>(blank: P, orUpdate: bool, key: int, updater: Option<Updater<P>>,
                             before: Vals<P>, after: Vals<P>, outcome: Outcome) {
    if key !in LiveKeys(before) then
      && outcome == (if key in before then Revived else Inserted)
      && after == before[key := Val(OrBlank(Apply(updater, key, None), blank), false)]
    else if orUpdate && updater.Some? then
      && outcome == Updated
      && after == before[key := Val(OrBlank(Apply(updater, key, Some(before[key].payload)), blank), false)]
    else
      outcome == AlreadyPresent && after == before
  }

  // ---------------------------------------------------------------- facts about the abstract map

  lemma SetLive<P>(vals: Vals<P>, k: int, p: P)
    ensures LiveKeys(vals[k := Val(p, false)]) == LiveKeys(vals) + {k}
    ensures k !in vals ==> k !in LiveKeys(vals)
    ensures LiveMap(vals[k := Val(p, false)]) == LiveMap(vals)[k := p]
    ensures |LiveKeys(vals[k := Val(p, false)])| == |LiveKeys(vals)| + if k in LiveKeys(vals) then 0 else 1
  {
    if k in LiveKeys(vals) { assert LiveKeys(vals) + {k} == LiveKeys(vals); }
  }

  lemma SetDead<P>(vals: Vals<P>, k: int, p: P)
    requires k in LiveKeys(vals)
    ensures LiveKeys(vals[k := Val(p, true)]) == LiveKeys(vals) - {k}
    ensures LiveMap(vals[k := Val(p, true)]) == LiveMap(vals) - {k}
    ensures |LiveKeys(vals[k := Val(p, true)])| == |LiveKeys(vals)| - 1
  {}

  // ---------------------------------------------------------------- identities set aside by an insert

  /** Identities base..base+top were set aside; the tower nodes for levels up to lvl are still unused,
      and so is the split sibling as long as the top level has not been reached. */
  ghost predicate ReservedOK<P>(a: Arena<P>, base: nat, top: nat, lvl: int) {
    && FreshFrom(a, base + top + 1)
    && (forall id :: base <= id < base + top && base + top - 1 - id <= lvl ==> id !in a)
    && (lvl >= top ==> base + top !in a)
  }

  /** Between the levels of an insert of key; pend is the tower node to be linked at level lvl. */
  ghost predicate InsertOK<P>(c: Config, a: Arena<P>, headers: seq<nat>, chains: seq<seq<nat>>, vals: Vals<P>,
                              key: int, base: nat, top: nat, lvl: int, pend: nat) {
    && c.Valid() && c.lo < key < c.hi && top == c.top(key) < |chains|
    && MidOK(c, a, chains, vals.Keys, key, top, lvl, pend)
    && (lvl < top ==> pend == base + (top - 1 - lvl))
    && ReservedOK(a, base, top, lvl)
    && HeadersOK(headers, chains)
    && ValsOK(c, chains, vals)
    && LeafMatch(c, a, chains[0], vals)
    && Linked(a, chains)
    && (lvl < top ==> key !in vals)
  }

  /** The same at the top level, while key may still be entered anywhere in it. */
  ghost predicate EnterOK<P>(c: Config, a: Arena<P>, headers: seq<nat>, chains: seq<seq<nat>>, vals: Vals<P>,
                             key: int, base: nat, top: nat) {
    && c.Valid() && c.lo < key < c.hi && top == c.top(key) && key !in vals
    && MidOK(c, a, chains, vals.Keys, key, top, top, base)
    && FreshFrom(a, base + top + 1) && (forall id :: base <= id < base + top ==> id !in a)
    && HeadersOK(headers, chains)
    && ValsOK(c, chains, vals)
    && LeafMatch(c, a, chains[0], vals)
    && Linked(a, chains)
  }

  ghost predicate HeadersOK(headers: seq<nat>, chains: seq<seq<nat>>) {
    |headers| == |chains| && forall l :: 0 <= l < |headers| ==> |chains[l]| > 0 && headers[l] == chains[l][0]
  }

  ghost predicate ValsOK<P>(c: Config, chains: seq<seq<nat>>, vals: Vals<P>) {
    forall k :: k in vals ==> c.lo < k < c.hi && c.top(k) < |chains| && vals[k].Val?
  }

  lemma FitsHere<P>(c: Config, n: Node<P>, l: nat, slot: nat, k: int)
    requires NodeOK(c, n, l) && slot < |n.keys| && n.keys[slot] < k < n.nextMin
    requires slot + 1 < |n.keys| ==> k < n.keys[slot + 1]
    ensures Fits(n, slot + 1, k)
  {}

  lemma FitsAfterHalving<P>(c: Config, n: Node<P>, l: nat, s: nat, k: int, newId: nat)
    requires NodeOK(c, n, l) && Fits(n, s, k) && |n.keys| == c.maxKeys >= 2
    ensures var at := |n.keys| / 2;
            && CanSplit(c, n, l, at, [], [])
            && (s <= at ==> var m := LeftPart(n, at, newId, n.keys[at]);
                            Fits(m, s, k) && NodeOK(c, m, l) && |m.keys| < c.maxKeys)
            && (s > at ==> var m := RightPart(n, at, [], []);
                           Fits(m, s - at, k) && NodeOK(c, m, l) && |m.keys| < c.maxKeys)
  {
    hide EvolvesNode;
    SplitNode(c, n, l, |n.keys| / 2, [], [], newId);
  }

  /** Last slot whose key is not above k, found as the source finds it: from slot 1 upwards. */
  method FindSlot<P>(n: Node<P>, k: int) returns (slot: nat, found: bool)
    requires |n.keys| > 0 && Ascending(n.keys) && n.keys[0] <= k
    ensures slot < |n.keys| && n.keys[slot] <= k
    ensures slot + 1 < |n.keys| ==> k < n.keys[slot + 1]
    ensures found <==> k in n.keys
    ensures found ==> n.keys[slot] == k
  {
    var i := 1;
    while i < |n.keys| && n.keys[i] <= k
      invariant 1 <= i <= |n.keys|
      invariant forall j :: 0 <= j < i ==> n.keys[j] <= k
    {
      i := i + 1;
    }
    slot, found := i - 1, n.keys[i - 1] == k;
  }

  // ---------------------------------------------------------------- one level of an insert, with everything else

  /** At the node covering key, key is found exactly if the list knows it and its tower reaches here. */
  lemma FoundMeans<P>(c: Config, a: Arena<P>, chains: seq<seq<nat>>, keys: set<int>, key: int, top: nat, lvl: nat,
      pend: nat, i: nat)
    requires MidOK(c, a, chains, keys, key, top, lvl, pend) && i < |chains[lvl]| && chains[lvl][i] in a
    requires |a[chains[lvl][i]].keys| > 0 && c.lo < key && a[chains[lvl][i]].keys[0] <= key < a[chains[lvl][i]].nextMin
    ensures key in a[chains[lvl][i]].keys <==> key in keys && c.top(key) >= lvl
  {
    LevelFacts(c, a, chains, keys, key, top, lvl, pend);
    LocateKey(c, a, chains[lvl], lvl, i, key);
    assert HasKey(a, chains[lvl], key) <==> key in LevelSet(c, keys, lvl);
  }

  lemma ChildOf<P>(c: Config, a: Arena<P>, headers: seq<nat>, chains: seq<seq<nat>>, vals: Vals<P>, key: int,
      base: nat, top: nat,
                   lvl: nat, pend: nat, i: nat, slot: nat, below: nat)
    returns (j: nat)
    requires InsertOK(c, a, headers, chains, vals, key, base, top, lvl, pend) && lvl > 0 && below == lvl - 1
    requires i < |chains[lvl]| && chains[lvl][i] in a && slot < |a[chains[lvl][i]].keys|
    ensures slot < |a[chains[lvl][i]].entries|
    ensures var e := a[chains[lvl][i]].entries[slot];
            && e.Kid? && j < |chains[below]| && chains[below][j] == e.id
            && e.id in a && |a[e.id].keys| > 0 && a[e.id].keys[0] == a[chains[lvl][i]].keys[slot]
  {
    hide Linked, LeafMatch, ValsOK, HeadersOK, ReservedOK, KeysAre, ChainOK, Ascending;
    LevelFacts(c, a, chains, vals.Keys, key, top, lvl, pend);
    var n := a[chains[lvl][i]];
    assert NodeRouteOK(a, n, Below(chains, lvl), None);
    assert EntryOK(a, n.keys[slot], n.entries[slot], Below(chains, lvl), None);
    j :| 0 <= j < |chains[lvl - 1]| && chains[lvl - 1][j] == n.entries[slot].id;
  }

  lemma InsertEntersTop<P>(c: Config, a: Arena<P>, b: Arena<P>, headers: seq<nat>, chains: seq<seq<nat>>, vals: Vals<P>,
                           key: int, base: nat, top: nat, lvl': int, i: nat, s: nat)
    requires top > 0 && EnterOK(c, a, headers, chains, vals, key, base, top) && lvl' == top - 1
    requires IsInsert(c, a, chains[top], i, s, key, Kid(base), b)
    ensures InsertOK(c, b, headers, chains, vals, key, base, top, lvl', base) && Evolves(a, b)
  {
    hide MidOK, LeafMatch, Evolves, HeadersOK, ValsOK, Linked;
    EnterFacts(c, a, headers, chains, vals, key, base, top);
    LinkedInsert(c, a, b, chains, chains[top], i, s, key, Kid(base));
    StepInsert(c, a, b, chains, vals.Keys, key, top, base, i, s, Kid(base), lvl', base);
    LeafMatchFrame(c, a, b, chains, top, vals);
    assert ReservedOK(b, base, top, lvl');
  }

  lemma LeafMatchFrame<P>(c: Config, a: Arena<P>, b: Arena<P>, chains: seq<seq<nat>>, lvl: nat, vals: Vals<P>)
    requires |chains| > 0 && ChainOK(c, a, chains[0], 0) && OnlyLevel(a, b, lvl) && lvl > 0 &&
        LeafMatch(c, a, chains[0], vals)
    ensures LeafMatch(c, b, chains[0], vals)
  {
    forall i | 0 <= i < |chains[0]| ensures chains[0][i] in b && LeafNodeMatch(c, b[chains[0][i]], vals) {
      assert chains[0][i] in a && LeafNodeMatch(c, a[chains[0][i]], vals);
    }
  }

  lemma InsertHalvesTop<P>(c: Config, a: Arena<P>, b: Arena<P>, headers: seq<nat>, chains: seq<seq<nat>>, vals: Vals<P>,
                           key: int, base: nat, top: nat, i: nat, at: nat, sib: nat, chains': seq<seq<nat>>)
    requires EnterOK(c, a, headers, chains, vals, key, base, top) && sib == base + top
    requires IsSplit(c, a, chains[top], top, i, at, [], [], sib, b)
    requires chains' == chains[top := SplitIds(chains[top], i, sib)]
    ensures EnterOK(c, b, headers, chains', vals, key, base, top) && Evolves(a, b)
  {
    hide MidOK, LeafMatch, Evolves, IsSplit, Linked;
    EnterFacts(c, a, headers, chains, vals, key, base, top);
    SplitAdds(c, a, chains[top], top, i, at, [], [], sib, b);
    HeadersSplit(headers, chains, top, i, sib);
    LinkedSplit(c, a, b, chains, top, i, at, [], [], sib);
    StepHalve(c, a, b, chains, vals.Keys, key, top, base, i, at, sib);
    if top > 0 {
      LeafMatchFrame(c, a, b, chains, top, vals);
    } else {
      LeafMatchSplit(c, a, b, chains[0], i, at, [], [], sib, vals, vals);
    }
  }

  lemma InsertPromotes<P>(c: Config, a: Arena<P>, b: Arena<P>, headers: seq<nat>, chains: seq<seq<nat>>, vals: Vals<P>,
                          key: int, base: nat, top: nat, lvl: nat, pend: nat, i: nat, at: nat, lvl': int, child: nat,
                              chains': seq<seq<nat>>)
    requires 0 < lvl < top && lvl' == lvl - 1 && InsertOK(c, a, headers, chains, vals, key, base, top, lvl, pend)
    requires child == pend + 1
    requires IsSplit(c, a, chains[lvl], lvl, i, at, [key], [Kid(child)], pend, b)
    requires chains' == chains[lvl := SplitIds(chains[lvl], i, pend)]
    ensures InsertOK(c, b, headers, chains', vals, key, base, top, lvl', child) && Evolves(a, b)
  {
    hide LeafMatch, Evolves, IsSplit, HeadersOK, ReservedOK, Linked;
    SplitAdds(c, a, chains[lvl], lvl, i, at, [key], [Kid(child)], pend, b);
    LinkedSplit(c, a, b, chains, lvl, i, at, [key], [Kid(child)], pend);
    StepPromote(c, a, b, chains, vals.Keys, key, top, lvl, i, at, Kid(child), pend, lvl', child, chains');
    LeafMatchFrame(c, a, b, chains, lvl, vals);
    ReservedStep(a, b, base, top, lvl, pend, lvl');
    HeadersSplit(headers, chains, lvl, i, pend);
  }

  lemma ReservedStep<P>(a: Arena<P>, b: Arena<P>, base: nat, top: nat, lvl: nat, pend: nat, lvl': int)
    requires ReservedOK(a, base, top, lvl) && lvl < top && pend == base + (top - 1 - lvl) && lvl' == lvl - 1
    requires b.Keys == a.Keys + {pend}
    ensures ReservedOK(b, base, top, lvl')
  {}

  lemma LinkedInsert<P>(c: Config, a: Arena<P>, b: Arena<P>, chains: seq<seq<nat>>, ids: seq<nat>, i: nat, s: nat,
      k: int, e: Entry<P>)
    requires Linked(a, chains) && IsInsert(c, a, ids, i, s, k, e, b)
    ensures Linked(b, chains)
  {}

  lemma LinkedSplit<P>(c: Config, a: Arena<P>, b: Arena<P>, chains: seq<seq<nat>>, l: nat, i: nat, at: nat,
      pk: seq<int>,
                       pe: seq<Entry<P>>, newId: nat)
    requires l < |chains| && Linked(a, chains) && IsSplit(c, a, chains[l], l, i, at, pk, pe, newId, b)
    ensures Linked(b, chains[l := SplitIds(chains[l], i, newId)])
  {
    SplitIdsGrow(chains[l], i, newId);
    var chains' := chains[l := SplitIds(chains[l], i, newId)];
    forall id | id in b ensures InLevel(chains', b[id].level, id) {
      if id != newId {
        assert b[id].level == a[id].level;
        assert InLevel(chains, a[id].level, id);
      }
    }
  }

  lemma HeadersSplit(headers: seq<nat>, chains: seq<seq<nat>>, lvl: nat, i: nat, id: nat)
    requires HeadersOK(headers, chains) && lvl < |chains| && i < |chains[lvl]|
    ensures HeadersOK(headers, chains[lvl := SplitIds(chains[lvl], i, id)])
  {}

  // ---------------------------------------------------------------- the leaf level of an insert

  lemma LeafEnter<P>(c: Config, a: Arena<P>, b: Arena<P>, headers: seq<nat>, chains: seq<seq<nat>>, vals: Vals<P>,
                     key: int, base: nat, i: nat, s: nat, e: Entry<P>, top: nat, lvl': int)
    requires EnterOK(c, a, headers, chains, vals, key, base, top) && e.Val? && top == 0 && lvl' == -1
    requires i < |chains[0]| && chains[0][i] in a && NodeOK(c, a[chains[0][i]], 0)
    requires |a[chains[0][i]].keys| < c.maxKeys && Fits(a[chains[0][i]], s, key)
    requires b == a[chains[0][i] := InsertAt(a[chains[0][i]], s, key, e)]
    ensures TreeOK(c, b, headers, chains, vals[key := e]) && Evolves(a, b) && FreshFrom(b, base + 1)
  {
    hide MidOK, Settled, LeafMatch, Evolves, Fits, HeadersOK, Linked;
    EnterFacts(c, a, headers, chains, vals, key, base, top);
    LinkedInsert(c, a, b, chains, chains[0], i, s, key, e);
    StepInsert(c, a, b, chains, vals.Keys, key, top, base, i, s, e, lvl', base);
    FinishInsert(c, b, chains, vals.Keys, key, top, lvl', base);
    assert vals.Keys + {key} == vals[key := e].Keys;
    LeafMatchInsert(c, a, b, chains[0], i, s, key, e, vals);
  }

  lemma LeafPromote<P>(c: Config, a: Arena<P>, b: Arena<P>, headers: seq<nat>, chains: seq<seq<nat>>, vals: Vals<P>,
                       key: int, base: nat, top: nat, pend: nat, i: nat, at: nat, e: Entry<P>, lvl: nat, lvl': int,
                           chains': seq<seq<nat>>)
    requires InsertOK(c, a, headers, chains, vals, key, base, top, lvl, pend) && e.Val? && lvl == 0 < top && lvl' == -1
    requires IsSplit(c, a, chains[lvl], lvl, i, at, [key], [e], pend, b)
    requires chains' == chains[lvl := SplitIds(chains[lvl], i, pend)]
    ensures TreeOK(c, b, headers, chains', vals[key := e]) && Evolves(a, b) && FreshFrom(b, base + top + 1)
  {
    hide MidOK, Settled, LeafMatch, Evolves, IsSplit, HeadersOK, Linked;
    SplitAdds(c, a, chains[lvl], lvl, i, at, [key], [e], pend, b);
    LinkedSplit(c, a, b, chains, lvl, i, at, [key], [e], pend);
    StepPromote(c, a, b, chains, vals.Keys, key, top, lvl, i, at, e, pend, lvl', pend, chains');
    FinishInsert(c, b, chains', vals.Keys, key, top, lvl', pend);
    assert vals.Keys + {key} == vals[key := e].Keys;
    LeafMatchSplit(c, a, b, chains[0], i, at, [key], [e], pend, vals, vals[key := e]);
    HeadersSplit(headers, chains, lvl, i, pend);
  }

  /** Rewriting the slot of a known key. */
  lemma SetSlot<P>(c: Config, a: Arena<P>, b: Arena<P>, headers: seq<nat>, chains: seq<seq<nat>>, vals: Vals<P>,
      i: nat, j: nat,
                   id: nat, key: int, e: Entry<P>)
    requires TreeOK(c, a, headers, chains, vals) && i < |chains[0]| && id == chains[0][i] && j < |a[id].keys|
    requires key == a[id].keys[j] && key != c.lo && e.Val? && j < |a[id].entries|
    requires b == a[id := a[id].(entries := a[id].entries[j := e])]
    ensures key in vals && a[id].entries[j] == vals[key]
    ensures TreeOK(c, b, headers, chains, vals[key := e]) && Evolves(a, b)
  {
    hide Settled, Evolves, Linked, Ascending;
    SettledHead(c, a, chains, vals.Keys);
    SlotValue(c, a, headers, chains, vals, i, id, j, key);
    LinkedSet(a, b, chains, id);
    SetEntryKeeps(c, a, b, chains, vals.Keys, i, j, e);
    LeafMatchSet(c, a, b, chains[0], i, j, e, vals);
    assert vals[key := e].Keys == vals.Keys;
  }

  lemma GrowTree<P>(c: Config, a: Arena<P>, b: Arena<P>, headers: seq<nat>, chains: seq<seq<nat>>, vals: Vals<P>,
      id: nat)
    requires TreeOK(c, a, headers, chains, vals) && |chains| < c.maxHeight && id !in a
    requires b == a[id := Node(|headers|, [c.lo], [Kid(headers[|headers| - 1])], None, c.hi)]
    ensures TreeOK(c, b, headers + [id], chains + [[id]], vals) && Evolves(a, b)
  {
    hide Settled, Evolves, Linked;
    SettledHead(c, a, chains, vals.Keys);
    GrowKeeps(c, a, b, chains, vals.Keys, id);
    LinkedGrow(a, b, chains, id);
    forall i | 0 <= i < |chains[0]| ensures chains[0][i] in b && LeafNodeMatch(c, b[chains[0][i]], vals) {
      assert LeafNodeMatch(c, a[chains[0][i]], vals);
    }
  }

  lemma LinkedSet<P>(a: Arena<P>, b: Arena<P>, chains: seq<seq<nat>>, id: nat)
    requires Linked(a, chains) && b.Keys == a.Keys && forall id' :: id' in a ==> b[id'].level == a[id'].level
    ensures Linked(b, chains)
  {}

  lemma SettledHead<P>(c: Config, a: Arena<P>, chains: seq<seq<nat>>, keys: set<int>)
    requires Settled(c, a, chains, keys)
    ensures |chains| > 0 && ChainOK(c, a, chains[0], 0)
  {}

  lemma LinkedGrow<P>(a: Arena<P>, b: Arena<P>, chains: seq<seq<nat>>, id: nat)
    requires Linked(a, chains) && id in b && b[id].level == |chains| && b.Keys == a.Keys + {id}
    requires forall id' :: id' in a && id' != id ==> b[id'] == a[id']
    ensures Linked(b, chains + [[id]])
  {
    assert (chains + [[id]])[|chains|] == [id];
    forall id' | id' in b ensures InLevel(chains + [[id]], b[id'].level, id') {
      if id' != id { assert InLevel(chains, a[id'].level, id'); }
    }
  }

  lemma SettledChild<P>(c: Config, a: Arena<P>, chains: seq<seq<nat>>, keys: set<int>, lvl: nat, i: nat,
      slot: nat) returns (j: nat)
    requires Settled(c, a, chains, keys) && 0 < lvl < |chains| && i < |chains[lvl]| && slot < |a[chains[lvl][i]].keys|
    ensures slot < |a[chains[lvl][i]].entries|
    ensures var e := a[chains[lvl][i]].entries[slot];
            && e.Kid? && j < |chains[lvl - 1]| && chains[lvl - 1][j] == e.id
            && e.id in a && |a[e.id].keys| > 0 && a[e.id].keys[0] == a[chains[lvl][i]].keys[slot]
  {
    assert RouteDown(a, chains, lvl);
    var n := a[chains[lvl][i]];
    assert NodeRouteOK(a, n, chains[lvl - 1], None);
    assert EntryOK(a, n.keys[slot], n.entries[slot], chains[lvl - 1], None);
    j :| 0 <= j < |chains[lvl - 1]| && chains[lvl - 1][j] == n.entries[slot].id;
  }

  lemma StartInsert<P>(c: Config, a: Arena<P>, headers: seq<nat>, chains: seq<seq<nat>>, vals: Vals<P>, key: int,
      base: nat, top: nat, lvl: nat)
    requires TreeOK(c, a, headers, chains, vals) && FreshFrom(a, base) && c.lo < key < c.hi &&
        top == c.top(key) < |chains|
    requires lvl == |chains| - 1
    ensures InsertOK(c, a, headers, chains, vals, key, base, top, lvl, base)
  {
    BeginInsert(c, a, chains, vals.Keys, key, top, lvl, base);
  }

  lemma InsertAbove<P>(c: Config, a: Arena<P>, headers: seq<nat>, chains: seq<seq<nat>>, vals: Vals<P>, key: int,
                       base: nat, top: nat, lvl: nat, pend: nat, lvl': int)
    requires InsertOK(c, a, headers, chains, vals, key, base, top, lvl, pend) && top < lvl && lvl' == lvl - 1
    ensures InsertOK(c, a, headers, chains, vals, key, base, top, lvl', pend)
  {
    hide MidOK, Linked, LeafMatch, ValsOK, HeadersOK;
    StepAbove(c, a, chains, vals.Keys, key, top, lvl, pend, pend);
  }
}
