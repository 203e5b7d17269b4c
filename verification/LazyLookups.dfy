/** Lookups in ConcurrentSkipList: findNodeDownRight and the look at the mark in find, reading the list while other
    threads change it. A lookup writes nothing, so it is a sequence of readers beside a run of the list. */
module LazyLookups {
  import opened Options
  import opened LazyHeap
  import opened LazySkipList
  import opened LazyInvariant
  import opened LazyProofs
  import opened LazyTheorems
  import opened LazyReach

  datatype ReadPc = Fetch | Down | Right | Check | Done(found: bool)

  /** pred, ht and node of findNodeDownRight. */
  datatype Reader = Reader(data: int, pc: ReadPc, pred: Id, ht: nat, node: Option<Id>)

  /** less(data, node): the end of a layer is greater than everything. */
  predicate Beyond(h: Heap, data: int, node: Option<Id>) {
    node.None? || (node.value in h && data < h[node.value].key)
  }

  predicate Before(h: Heap, data: int, node: Option<Id>) {
    node.Some? && node.value in h && h[node.value].key < data
  }

  /** One load. */
  ghost predicate ReadStep(s: State, r: Reader, r': Reader) {
    match r.pc
    case Fetch =>
      s.head in s.heap && r' == r.(pc := Down, pred := s.head, ht := s.heap[s.head].height, node := None)
    case Down =>
      if r.ht == 0 then r' == r.(pc := Done(false))
      else
        && r.pred in s.heap && r.ht - 1 < |s.heap[r.pred].skip|
        && var next := s.heap[r.pred].skip[r.ht - 1];
           r' == r.(ht := r.ht - 1, node := next, pc := if Beyond(s.heap, r.data, next) then Down else Right)
    case Right =>
      if Before(s.heap, r.data, r.node) then
        && r.ht < |s.heap[r.node.value].skip|
        && r' == r.(pred := r.node.value, node := s.heap[r.node.value].skip[r.ht])
      else r' == r.(pc := if Beyond(s.heap, r.data, r.node) then Down else Check)
    case Check =>
      r.node.Some? && r.node.value in s.heap && r' == r.(pc := Done(!s.heap[r.node.value].marked))
    case Done(_) => false
  }

  /** A lookup of k that begins at moment i, each of its loads at some later moment. */
  ghost predicate IsLookup(run: seq<State>, rs: seq<Reader>, i: nat, k: int) {
    && i < |run| == |rs| && rs[i].pc == Fetch && rs[i].data == k
    && forall u :: i < u < |run| ==> rs[u] == rs[u - 1] || ReadStep(run[u - 1], rs[u - 1], rs[u])
  }

  // ---------------------------------------------------------------- where a lookup can be

  ghost predicate PlaceOK(run: seq<State>, i: nat, j: nat, k: int, r: Reader)
    requires j < |run|
  {
    var h := run[j].heap;
    && r.data == k
    && (r.pc == Down && r.ht > 0 ==> Since(run, i, j, r.pred, r.ht - 1) && r.pred in h && Below(h[r.pred], k))
    && (r.pc == Right ==>
          && Since(run, i, j, r.pred, r.ht) && r.pred in h && Below(h[r.pred], k)
          && (r.node.Some? ==> Since(run, i, j, r.node.value, r.ht) && r.node.value in h && !h[r.node.value].isHead))
    && (r.pc == Check ==>
          r.node.Some? && Since(run, i, j, r.node.value, 0) && r.node.value in h && !h[r.node.value].isHead &&
              h[r.node.value].key == k)
  }

  lemma PlaceStays(run: seq<State>, i: nat, j: nat, k: int, r: Reader)
    requires IsPaced(run) && i <= j && j + 1 < |run| && PlaceOK(run, i, j, k, r)
    ensures PlaceOK(run, i, j + 1, k, r)
  {
    hide Start, Next, Since;
    if r.pc == Down && r.ht > 0 {
      SinceGrows(run, i, j, j + 1, r.pred, r.ht - 1);
      PacedNode(run, j, j + 1, r.pred);
    } else if r.pc == Right {
      SinceGrows(run, i, j, j + 1, r.pred, r.ht);
      PacedNode(run, j, j + 1, r.pred);
      if r.node.Some? {
        SinceGrows(run, i, j, j + 1, r.node.value, r.ht);
        PacedNode(run, j, j + 1, r.node.value);
      }
    } else if r.pc == Check {
      SinceGrows(run, i, j, j + 1, r.node.value, 0);
      PacedNode(run, j, j + 1, r.node.value);
    }
  }

  /** What a link of a node that is or was in the layer leads to. */
  lemma Follows(run: seq<State>, i: nat, j: nat, id: Id, l: nat)
    requires IsPaced(run) && i <= j < |run| && Since(run, i, j, id, l)
    ensures id in run[j].heap && l < |run[j].heap[id].skip|
    ensures var next := run[j].heap[id].skip[l];
      next.Some? ==> Since(run, i, j, next.value, l) && next.value in run[j].heap && !run[j].heap[next.value].isHead
  {
    hide Start, Next, Since;
    SinceLeadsWell(run, i, j, id, l, 0);
    PacedInv(run, j);
    MyHeap(run[j]);
    hide Inv;
    assert LinkOK(run[j].heap, id, l);
  }

  lemma HeadSince(run: seq<State>, i: nat, j: nat, l: nat)
    requires IsPaced(run) && i <= j < |run| && l < HeadHeight(run[j])
    ensures Since(run, i, j, run[j].head, l) && run[j].head in run[j].heap && run[j].heap[run[j].head].isHead
  {
    hide Start, Next;
    PacedInv(run, j);
    MyHeap(run[j]);
    assert InLayerAt(run[j], run[j].head, l);
  }

  function HeadHeight(s: State): nat {
    if s.head in s.heap then s.heap[s.head].height else 0
  }

  lemma PlaceMoves(run: seq<State>, i: nat, j: nat, k: int, r: Reader, r': Reader)
    requires IsPaced(run) && i <= j < |run| && PlaceOK(run, i, j, k, r) && ReadStep(run[j], r, r')
    ensures PlaceOK(run, i, j, k, r')
  {
    hide IsPaced, Since;
    if r.pc == Fetch {
      if r'.ht > 0 { HeadSince(run, i, j, r'.ht - 1); }
    } else if r.pc == Down && r.ht > 0 {
      Follows(run, i, j, r.pred, r.ht - 1);
      if r.ht > 1 { SinceBelow(run, i, j, r.pred, r.ht - 1, r.ht - 2); }
    } else if r.pc == Right {
      if Before(run[j].heap, k, r.node) {
        Follows(run, i, j, r.node.value, r.ht);
      } else {
        if r.ht > 0 { SinceBelow(run, i, j, r.pred, r.ht, r.ht - 1); }
        if r.node.Some? { SinceBelow(run, i, j, r.node.value, r.ht, 0); }
      }
    }
  }

  lemma {:induction false} LookupPlace(run: seq<State>, rs: seq<Reader>, i: nat, j: nat, k: int)
    requires IsPaced(run) && IsLookup(run, rs, i, k) && i <= j < |run|
    ensures PlaceOK(run, i, j, k, rs[j])
  {
    hide IsPaced, PlaceOK, ReadStep;
    if i == j {
      FetchPlace(run, i, k, rs[i]);
    } else {
      LookupPlace(run, rs, i, j - 1, k);
      if rs[j] != rs[j - 1] { PlaceMoves(run, i, j - 1, k, rs[j - 1], rs[j]); }
      PlaceStays(run, i, j - 1, k, rs[j]);
    }
  }

  lemma FetchPlace(run: seq<State>, i: nat, k: int, r: Reader)
    requires i < |run| && r.pc == Fetch && r.data == k
    ensures PlaceOK(run, i, i, k, r)
  {}

  // ---------------------------------------------------------------- a key that is there all the time is found

  /** The node holds k, at the bottom of the list and unmarked. */
  ghost predicate Keeps(s: State, x: Id, k: int) {
    x in s.heap && s.heap[x].layers > 0 && !s.heap[x].marked && s.heap[x].key == k
  }

  ghost predicate KeepsThroughout(run: seq<State>, i: nat, j: nat, x: Id, k: int) {
    forall u :: i <= u <= j && u < |run| ==> Keeps(run[u], x, k)
  }

  /** The lookup has not gone past x. */
  ghost predicate NotPast(run: seq<State>, j: nat, k: int, x: Id, r: Reader)
    requires j < |run|
  {
    var h := run[j].heap;
    && (r.pc == Down ==> r.ht > 0)
    && (r.pc == Right && r.ht == 0 ==> r.node.Some? && r.node.value in h && h[r.node.value].key <= k)
    && (r.pc == Check ==> r.node == Some(x))
    && (r.pc.Done? ==> r.pc.found)
  }

  /** Two nodes of one key, both in the list at one moment or other while x stays, are one. */
  lemma OnlyHolder(run: seq<State>, i: nat, j: nat, x: Id, k: int, n: Id, l: nat)
    requires IsPaced(run) && i <= j < |run| && KeepsThroughout(run, i, j, x, k) && Since(run, i, j, n, l)
    requires n in run[j].heap && !run[j].heap[n].isHead && run[j].heap[n].key == k
    ensures n == x
  {
    hide Start, Next;
    var u :| i <= u <= j && u < |run| && InLayerAt(run[u], n, l);
    assert Keeps(run[u], x, k);
    PacedInv(run, u);
    MyHeap(run[u]);
    hide Inv;
    PacedNode(run, u, j, n);
  }

  lemma NextNotPast(run: seq<State>, i: nat, j: nat, x: Id, k: int, id: Id)
    requires IsPaced(run) && i <= j < |run| && KeepsThroughout(run, i, j, x, k) && Since(run, i, j, id, 0)
    requires id in run[j].heap && Below(run[j].heap[id], k)
    ensures 0 < |run[j].heap[id].skip|
    ensures var next := run[j].heap[id].skip[0];
            next.Some? && next.value in run[j].heap && run[j].heap[next.value].key <= k
  {
    hide Start, Next;
    SinceLeadsWell(run, i, j, id, 0, x);
    Follows(run, i, j, id, 0);
    forall u | i <= u <= j && u < |run| ensures x in run[u].heap && 0 < run[u].heap[x].layers {
        assert Keeps(run[u], x, k); }
    assert Throughout(run, i, j, x, 0) && Keeps(run[j], x, k);
    PacedInv(run, j);
    MyHeap(run[j]);
    hide Inv;
    assert NodeOK(run[j].heap[x]);
  }

  lemma NotPastMoves(run: seq<State>, i: nat, j: nat, x: Id, k: int, r: Reader, r': Reader)
    requires IsPaced(run) && i <= j < |run| && KeepsThroughout(run, i, j, x, k)
    requires PlaceOK(run, i, j, k, r) && NotPast(run, j, k, x, r) && ReadStep(run[j], r, r')
    ensures NotPast(run, j, k, x, r')
  {
    hide IsPaced, Since;
    assert Keeps(run[j], x, k);
    if r.pc == Fetch {
      HeadIsTall(run, j);
    } else if r.pc == Down {
      Follows(run, i, j, r.pred, r.ht - 1);
      if r.ht == 1 { NextNotPast(run, i, j, x, k, r.pred); }
    } else if r.pc == Right {
      if Before(run[j].heap, k, r.node) {
        if r.ht == 0 { NextNotPast(run, i, j, x, k, r.node.value); }
      } else if !Beyond(run[j].heap, k, r.node) {
        OnlyHolder(run, i, j, x, k, r.node.value, r.ht);
      }
    }
  }

  lemma HeadIsTall(run: seq<State>, j: nat)
    requires IsPaced(run) && j < |run|
    ensures run[j].head in run[j].heap && run[j].heap[run[j].head].height > 0
  {
    hide Start, Next;
    PacedInv(run, j);
    MyHeap(run[j]);
  }

  lemma NotPastStays(run: seq<State>, i: nat, j: nat, k: int, x: Id, r: Reader)
    requires IsPaced(run) && j + 1 < |run| && NotPast(run, j, k, x, r)
    ensures NotPast(run, j + 1, k, x, r)
  {
    hide Start, Next;
    if r.pc == Right && r.ht == 0 { PacedNode(run, j, j + 1, r.node.value); }
  }

  lemma {:induction false} LookupNotPast(run: seq<State>, rs: seq<Reader>, i: nat, j: nat, x: Id, k: int)
    requires IsPaced(run) && IsLookup(run, rs, i, k) && i <= j < |run| && KeepsThroughout(run, i, j, x, k)
    ensures NotPast(run, j, k, x, rs[j])
  {
    hide IsPaced, PlaceOK, ReadStep, NotPast;
    if i == j {
      FetchNotPast(run, i, k, x, rs[i]);
    } else {
      LookupNotPast(run, rs, i, j - 1, x, k);
      LookupPlace(run, rs, i, j - 1, k);
      if rs[j] != rs[j - 1] { NotPastMoves(run, i, j - 1, x, k, rs[j - 1], rs[j]); }
      NotPastStays(run, i, j - 1, k, x, rs[j]);
    }
  }

  lemma FetchNotPast(run: seq<State>, i: nat, k: int, x: Id, r: Reader)
    requires i < |run| && r.pc == Fetch
    ensures NotPast(run, i, k, x, r)
  {}

  // ---------------------------------------------------------------- so every answer was true at some moment

  /** k is in the list: linked at the bottom layer by a node that nobody has marked. */
  ghost predicate InList(s: State, k: int) {
    exists x :: Keeps(s, x, k)
  }

  /** The holder of a key that never leaves the list is one and the same node. */
  lemma {:induction false} SameHolder(run: seq<State>, i: nat, j: nat, k: int) returns (x: Id)
    requires IsPaced(run) && i <= j < |run| && forall u :: i <= u <= j ==> InList(run[u], k)
    ensures KeepsThroughout(run, i, j, x, k)
  {
    hide IsPaced;
    assert InList(run[j], k);
    if i == j {
      x :| Keeps(run[j], x, k);
    } else {
      x := SameHolder(run, i, j - 1, k);
      assert Keeps(run[j - 1], x, k);
      var y :| Keeps(run[j], y, k);
      SameNext(run, j, x, y, k);
    }
  }

  lemma SameNext(run: seq<State>, j: nat, x: Id, y: Id, k: int)
    requires IsPaced(run) && 0 < j < |run| && Keeps(run[j - 1], x, k) && Keeps(run[j], y, k)
    ensures x == y
  {
    hide Start, Next;
    PacedEvolves(run, j);
    assert EvolvesAt(run[j - 1].heap, run[j].heap, run[j].head, x);
    PacedInv(run, j);
    MyHeap(run[j]);
    hide Inv;
  }

  lemma CheckedIsThere(run: seq<State>, i: nat, j: nat, k: int, r: Reader)
    requires IsPaced(run) && i <= j < |run| && PlaceOK(run, i, j, k, r) && r.pc == Check &&
        !run[j].heap[r.node.value].marked
    ensures InList(run[j], k)
  {
    hide Start, Next, Since;
    SinceSeen(run, i, j, r.node.value, 0);
    PacedInv(run, j);
    MyHeap(run[j]);
    hide Inv;
    assert NodeOK(run[j].heap[r.node.value]);
    assert Keeps(run[j], r.node.value, k);
  }

  lemma {:induction false} FoundWasThere(run: seq<State>, rs: seq<Reader>, i: nat, j: nat, k: int) returns (u: nat)
    requires IsPaced(run) && IsLookup(run, rs, i, k) && i <= j < |run| && rs[j].pc == Done(true)
    ensures i <= u <= j && InList(run[u], k)
  {
    hide IsPaced, PlaceOK, InList;
    if rs[j] == rs[j - 1] {
      u := FoundWasThere(run, rs, i, j - 1, k);
    } else {
      assert ReadStep(run[j - 1], rs[j - 1], rs[j]);
      LookupPlace(run, rs, i, j - 1, k);
      u := j - 1;
      CheckedIsThere(run, i, u, k, rs[u]);
    }
  }

  /** Whatever a lookup answers was true at some moment between its beginning and its end. */
  lemma LookupIsTrue(run: seq<State>, rs: seq<Reader>, i: nat, j: nat, k: int)
    requires IsPaced(run) && IsLookup(run, rs, i, k) && i <= j < |run| && rs[j].pc.Done?
    ensures exists u :: i <= u <= j && (InList(run[u], k) <==> rs[j].pc.found)
  {
    hide IsPaced, InList;
    if rs[j].pc.found {
      var u := FoundWasThere(run, rs, i, j, k);
    } else if forall u :: i <= u <= j ==> InList(run[u], k) {
      var x := SameHolder(run, i, j, k);
      LookupNotPast(run, rs, i, j, x, k);
      assert false;
    }
  }

  /** Being in the list and counting as added differ exactly by an add that is linked but not announced yet. */
  lemma AnnouncedOrNot(run: seq<State>, j: nat, k: int)
    requires IsPaced(run) && j < |run|
    ensures Present(run[j].log, k) ==> InList(run[j], k)
    ensures InList(run[j], k) && !Present(run[j].log, k) <==>
              exists x :: x in run[j].heap && run[j].heap[x].layers > 0 && !run[j].heap[x].linked &&
                  run[j].heap[x].key == k
  {
    hide Start, Next;
    PacedInv(run, j);
    MyHeap(run[j]);
    var s := run[j];
    assert Present(s.log, k) <==> HasLive(s.heap, k);
    hide Inv, Present;
    if x :| x in s.heap && Live(s.heap[x]) && s.heap[x].key == k {
      assert NodeOK(s.heap[x]);
      assert Keeps(s, x, k);
    }
    if x :| Keeps(s, x, k) {
      assert NodeOK(s.heap[x]);
      assert s.heap[x].linked ==> Live(s.heap[x]);
    }
    if x :| x in s.heap && s.heap[x].layers > 0 && !s.heap[x].linked && s.heap[x].key == k {
      assert NodeOK(s.heap[x]);
      assert Keeps(s, x, k);
      forall y | y in s.heap && Live(s.heap[y]) ensures s.heap[y].key != k { assert NodeOK(s.heap[y]); }
    }
  }
}
