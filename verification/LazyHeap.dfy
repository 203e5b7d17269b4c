/** The shared memory of ConcurrentSkipList and what each single write does to it. Three fields are
    history only: on how many layers a node is linked now, on how many it ever was, and who made it. */
module LazyHeap {
  import opened Options

  type Id = nat
  type Tid = nat

  datatype Node = Node(key: int, isHead: bool, height: nat, marked: bool, linked: bool, lock: Option<Tid>,
                       skip: seq<Option<Id>>, layers: nat, reached: nat, maker: Tid)

  type Heap = map<Id, Node>

  /** Order of the list; heads come before everything else and are not ordered among themselves. */
  predicate Less(a: Node, b: Node) {
    if a.isHead then !b.isHead else !b.isHead && a.key < b.key
  }

  /** The node has been linked at this layer at some time, so searches may have seen it. */
  ghost predicate Seen(h: Heap, id: Id, l: nat) {
    id in h && l < h[id].reached <= h[id].height
  }

  /** The node is linked at this layer now; the current head counts as linked everywhere. */
  ghost predicate InLayer(h: Heap, head: Id, id: Id, l: nat) {
    id in h && l < h[id].height && if h[id].isHead then id == head else l < h[id].layers
  }

  /** next is the first node of layer l after the given one. */
  ghost predicate IsSucc(h: Heap, id: Id, l: nat, next: Option<Id>)
    requires id in h
  {
    match next
    case None => forall m :: m in h && l < h[m].layers ==> !Less(h[id], h[m])
    case Some(x) =>
      && x in h && l < h[x].layers && Less(h[id], h[x])
      && forall m :: m in h && l < h[m].layers && Less(h[id], h[m]) ==> !Less(h[m], h[x])
  }

  ghost predicate NodeOK(n: Node) {
    && |n.skip| == n.height && n.layers <= n.reached <= n.height
    && n.height > 0 && (n.isHead ==> n.layers == 0 && !n.linked)
    && (!n.isHead && !n.marked ==> n.layers == n.reached)
    && (n.linked ==> n.reached == n.height)
    && (n.marked && !n.isHead ==> n.linked)
  }

  ghost predicate HeadOK(h: Heap, head: Id) {
    && head in h && h[head].isHead && h[head].reached == h[head].height > 0
    && forall id :: id in h ==> h[id].layers <= h[head].height
  }

  /** Every link leads to a node that was linked at that layer, further right. */
  ghost predicate LinkOK(h: Heap, id: Id, l: nat)
    requires id in h && l < |h[id].skip|
  {
    h[id].skip[l].Some? ==> var m := h[id].skip[l].value; Seen(h, m, l) && Less(h[id], h[m])
  }

  ghost predicate LinksOK(h: Heap) {
    forall id, l :: id in h && 0 <= l < |h[id].skip| ==> LinkOK(h, id, l)
  }

  ghost predicate LayersOK(h: Heap, head: Id)
    requires NodesOK(h)
  {
    forall id, l: nat :: InLayer(h, head, id, l) ==> IsSucc(h, id, l, h[id].skip[l])
  }

  ghost predicate NodesOK(h: Heap) {
    forall id :: id in h ==> NodeOK(h[id])
  }

  ghost predicate OneOfAKey(h: Heap) {
    forall a, b :: a in h && b in h && h[a].layers > 0 && h[b].layers > 0 && h[a].key == h[b].key ==> a == b
  }

  ghost predicate HeapOK(h: Heap, head: Id) {
    NodesOK(h) && HeadOK(h, head) && LinksOK(h) && LayersOK(h, head) && OneOfAKey(h)
  }

  // ---------------------------------------------------------------- writes that leave the layers alone

  /** Layer l looks the same in both heaps. */
  ghost predicate SameLayer(h: Heap, g: Heap, l: nat) {
    g.Keys == h.Keys && forall m :: m in h ==> SamePlace(h[m], g[m], l)
  }

  ghost predicate SamePlace(a: Node, b: Node, l: nat) {
    b.key == a.key && b.isHead == a.isHead && (l < b.layers <==> l < a.layers)
  }

  lemma SuccFrame(h: Heap, g: Heap, id: Id, l: nat, next: Option<Id>)
    requires id in h && IsSucc(h, id, l, next) && SameLayer(h, g, l)
    ensures IsSucc(g, id, l, next)
  {
    assert SamePlace(h[id], g[id], l);
    if next.Some? { assert SamePlace(h[next.value], g[next.value], l); }
    forall m | m in g ensures SamePlace(h[m], g[m], l) {}
  }

  /** Nothing that the layers depend on has changed. */
  ghost predicate SameShape(a: Node, b: Node) {
    && b.key == a.key && b.isHead == a.isHead && b.height == a.height && b.skip == a.skip
    && b.layers == a.layers && b.reached == a.reached
  }

  lemma ShapeKept(h: Heap, g: Heap, head: Id)
    requires HeapOK(h, head) && g.Keys == h.Keys && NodesOK(g) && forall id :: id in h ==> SameShape(h[id], g[id])
    ensures HeapOK(g, head)
  {
    forall id, l | id in g && 0 <= l < |g[id].skip| ensures LinkOK(g, id, l) {
      assert LinkOK(h, id, l);
    }
    forall id, l: nat | InLayer(g, head, id, l) ensures IsSucc(g, id, l, g[id].skip[l]) {
      assert InLayer(h, head, id, l);
      assert IsSucc(h, id, l, h[id].skip[l]);
      SuccFrame(h, g, id, l, h[id].skip[l]);
    }
  }

  /** A node nobody has seen yet does not matter. */
  lemma NewNode(h: Heap, head: Id, id: Id, n: Node)
    requires HeapOK(h, head) && id !in h && NodeOK(n) && n.reached == 0
    requires forall l :: 0 <= l < |n.skip| && n.skip[l].Some? ==>
        Seen(h, n.skip[l].value, l) && Less(n, h[n.skip[l].value])
    ensures HeapOK(h[id := n], head)
  {
    var g := h[id := n];
    forall i, l | i in g && 0 <= l < |g[i].skip| ensures LinkOK(g, i, l) {
      if i != id { assert LinkOK(h, i, l); }
    }
    forall i, l: nat | InLayer(g, head, i, l) ensures IsSucc(g, i, l, g[i].skip[l]) {
      assert InLayer(h, head, i, l);
      assert IsSucc(h, i, l, h[i].skip[l]);
    }
  }

  /** Writing a link of a node at a layer where it is not linked. */
  lemma PrepareLink(h: Heap, head: Id, id: Id, l: nat, next: Option<Id>)
    requires HeapOK(h, head) && id in h && !h[id].isHead && h[id].layers <= l < |h[id].skip|
    requires next.Some? ==> Seen(h, next.value, l) && Less(h[id], h[next.value])
    ensures HeapOK(h[id := h[id].(skip := h[id].skip[l := next])], head)
  {
    var g := h[id := h[id].(skip := h[id].skip[l := next])];
    forall i, l' | i in g && 0 <= l' < |g[i].skip| ensures LinkOK(g, i, l') {
      assert LinkOK(h, i, l');
    }
    forall i, l': nat | InLayer(g, head, i, l') ensures IsSucc(g, i, l', g[i].skip[l']) {
      assert InLayer(h, head, i, l');
      assert IsSucc(h, i, l', h[i].skip[l']);
      SuccFrame(h, g, i, l', h[i].skip[l']);
    }
  }

  // ---------------------------------------------------------------- linking and unlinking

  /** The predecessor's link is swung to the new node, which from then on is linked at layer l. */
  ghost function LinkedHeap(h: Heap, pred: Id, node: Id, l: nat): Heap
    requires pred in h && node in h && pred != node && l < |h[pred].skip|
  {
    h[pred := h[pred].(skip := h[pred].skip[l := Some(node)])]
     [node := h[node].(layers := l + 1, reached := l + 1)]
  }

  ghost predicate CanLink(h: Heap, head: Id, pred: Id, node: Id, l: nat) {
    && InLayer(h, head, pred, l) && head in h && node in h && !h[node].isHead
    && h[node].layers == h[node].reached == l < h[node].height <= h[head].height
    && !h[node].linked && !h[node].marked
    && Less(h[pred], h[node]) && l < |h[pred].skip| && l < |h[node].skip| && h[node].skip[l] == h[pred].skip[l]
    && (h[pred].skip[l].Some? ==> h[pred].skip[l].value in h && Less(h[node], h[h[pred].skip[l].value]))
  }

  /** Nothing linked at layer l lies between pred and its successor, so nothing has the key in between. */
  lemma GapIsEmpty(h: Heap, head: Id, pred: Id, node: Id, l: nat, m: Id)
    requires HeapOK(h, head) && CanLink(h, head, pred, node, l) && m in h && l < h[m].layers
    ensures Less(h[m], h[node]) || Less(h[node], h[m])
    ensures Less(h[m], h[node]) <==> !Less(h[pred], h[m])
    ensures h[m].key != h[node].key
  {
    assert IsSucc(h, pred, l, h[pred].skip[l]);
    assert NodeOK(h[m]);
  }

  lemma LinkSuccs(h: Heap, head: Id, pred: Id, node: Id, l: nat, id: Id, l': nat)
    requires HeapOK(h, head) && CanLink(h, head, pred, node, l)
    requires InLayer(LinkedHeap(h, pred, node, l), head, id, l')
    ensures var g := LinkedHeap(h, pred, node, l); l' < |g[id].skip| && IsSucc(g, id, l', g[id].skip[l'])
  {
    hide LinksOK, OneOfAKey, Less;
    var g := LinkedHeap(h, pred, node, l);
    assert NodeOK(h[id]) && NodeOK(h[pred]) && NodeOK(h[node]);
    if l' != l {
      assert InLayer(h, head, id, l');
      assert IsSucc(h, id, l', h[id].skip[l']);
      SuccFrame(h, g, id, l', h[id].skip[l']);
    } else if id == pred {
      LinkPred(h, head, pred, node, l);
    } else if id == node {
      LinkNode(h, head, pred, node, l);
    } else {
      OtherSuccs(h, head, pred, node, l, id);
    }
  }

  lemma LinkPred(h: Heap, head: Id, pred: Id, node: Id, l: nat)
    requires HeapOK(h, head) && CanLink(h, head, pred, node, l)
    ensures IsSucc(LinkedHeap(h, pred, node, l), pred, l, Some(node))
  {
    var g := LinkedHeap(h, pred, node, l);
    forall m | m in g && l < g[m].layers && Less(g[pred], g[m]) ensures !Less(g[m], g[node]) {
      if m != node { GapIsEmpty(h, head, pred, node, l, m); }
    }
  }

  lemma LinkNode(h: Heap, head: Id, pred: Id, node: Id, l: nat)
    requires HeapOK(h, head) && CanLink(h, head, pred, node, l)
    ensures IsSucc(LinkedHeap(h, pred, node, l), node, l, h[node].skip[l])
  {
    hide LinksOK;
    var g := LinkedHeap(h, pred, node, l);
    assert IsSucc(h, pred, l, h[pred].skip[l]);
    forall m | m in g && l < g[m].layers ensures Less(g[node], g[m]) ==> m != node && Less(h[pred], h[m]) {
      if m != node { GapIsEmpty(h, head, pred, node, l, m); }
    }
  }

  lemma OtherSuccs(h: Heap, head: Id, pred: Id, node: Id, l: nat, id: Id)
    requires HeapOK(h, head) && CanLink(h, head, pred, node, l) && InLayer(h, head, id, l) && id != pred && id != node
    ensures IsSucc(LinkedHeap(h, pred, node, l), id, l, h[id].skip[l])
  {
    hide LinksOK;
    var g := LinkedHeap(h, pred, node, l);
    assert IsSucc(h, id, l, h[id].skip[l]);
    if Less(h[id], h[node]) {
      if !h[id].isHead { GapIsEmpty(h, head, pred, node, l, id); }
      PredsDiffer(h, head, pred, id, l);
      if h[id].skip[l].Some? {
        GapIsEmpty(h, head, pred, node, l, h[id].skip[l].value);
      }
    }
  }

  /** Two different nodes of one layer are ordered one way or the other, except that there is one head. */
  lemma PredsDiffer(h: Heap, head: Id, a: Id, b: Id, l: nat)
    requires HeapOK(h, head) && InLayer(h, head, a, l) && InLayer(h, head, b, l) && a != b
    ensures Less(h[a], h[b]) || Less(h[b], h[a])
  {}

  lemma LinkKeeps(h: Heap, head: Id, pred: Id, node: Id, l: nat)
    requires HeapOK(h, head) && CanLink(h, head, pred, node, l)
    ensures HeapOK(LinkedHeap(h, pred, node, l), head)
  {
    var g := LinkedHeap(h, pred, node, l);
    assert NodesOK(g) by { LinkNodes(h, head, pred, node, l); }
    assert LinksOK(g) by { LinkLinks(h, head, pred, node, l); }
    assert OneOfAKey(g) by { LinkKeys(h, head, pred, node, l); }
    assert HeadOK(g, head);
    forall id, l': nat | InLayer(g, head, id, l') ensures IsSucc(g, id, l', g[id].skip[l']) {
      LinkSuccs(h, head, pred, node, l, id, l');
    }
  }

  lemma LinkNodes(h: Heap, head: Id, pred: Id, node: Id, l: nat)
    requires HeapOK(h, head) && CanLink(h, head, pred, node, l)
    ensures NodesOK(LinkedHeap(h, pred, node, l))
  {
    assert NodeOK(h[pred]) && NodeOK(h[node]);
  }

  lemma LinkLinks(h: Heap, head: Id, pred: Id, node: Id, l: nat)
    requires HeapOK(h, head) && CanLink(h, head, pred, node, l)
    ensures LinksOK(LinkedHeap(h, pred, node, l))
  {
    hide LayersOK, OneOfAKey, IsSucc;
    var g := LinkedHeap(h, pred, node, l);
    forall i, l' | i in g && 0 <= l' < |g[i].skip| ensures LinkOK(g, i, l') {
      assert LinkOK(h, i, l');
    }
  }

  lemma LinkKeys(h: Heap, head: Id, pred: Id, node: Id, l: nat)
    requires HeapOK(h, head) && CanLink(h, head, pred, node, l)
    ensures OneOfAKey(LinkedHeap(h, pred, node, l))
  {
    var g := LinkedHeap(h, pred, node, l);
    forall a | a in g && g[a].layers > 0 && g[a].key == g[node].key ensures a == node {
      if l == 0 && a != node { GapIsEmpty(h, head, pred, node, l, a); }
    }
  }

  /** The predecessor's link is swung over the victim, which from then on is linked below layer l only. */
  ghost function UnlinkedHeap(h: Heap, pred: Id, victim: Id, l: nat): Heap
    requires pred in h && victim in h && pred != victim && l < |h[pred].skip| && l < |h[victim].skip|
  {
    h[pred := h[pred].(skip := h[pred].skip[l := h[victim].skip[l]])]
     [victim := h[victim].(layers := l)]
  }

  ghost predicate CanUnlink(h: Heap, head: Id, pred: Id, victim: Id, l: nat) {
    && InLayer(h, head, pred, l) && victim in h && !h[victim].isHead && h[victim].marked && h[victim].layers == l + 1
    && l < |h[pred].skip| && l < |h[victim].skip| && h[pred].skip[l] == Some(victim)
  }

  lemma UnlinkSuccs(h: Heap, head: Id, pred: Id, victim: Id, l: nat, id: Id, l': nat)
    requires HeapOK(h, head) && CanUnlink(h, head, pred, victim, l) && pred != victim
    requires InLayer(UnlinkedHeap(h, pred, victim, l), head, id, l')
    ensures var g := UnlinkedHeap(h, pred, victim, l); l' < |g[id].skip| && IsSucc(g, id, l', g[id].skip[l'])
  {
    hide LinksOK, OneOfAKey, Less;
    var g := UnlinkedHeap(h, pred, victim, l);
    assert NodeOK(h[id]) && NodeOK(h[pred]) && NodeOK(h[victim]);
    assert InLayer(h, head, id, l');
    assert IsSucc(h, id, l', h[id].skip[l']);
    if l' != l {
      SuccFrame(h, g, id, l', h[id].skip[l']);
    } else if id == pred {
      UnlinkPred(h, head, pred, victim, l);
    } else {
      PredsDiffer(h, head, id, pred, l);
      UnlinkOther(h, head, pred, victim, l, id);
    }
  }

  lemma UnlinkPred(h: Heap, head: Id, pred: Id, victim: Id, l: nat)
    requires HeapOK(h, head) && CanUnlink(h, head, pred, victim, l) && pred != victim
    ensures IsSucc(UnlinkedHeap(h, pred, victim, l), pred, l, h[victim].skip[l])
  {
    hide LinksOK;
    var g, next := UnlinkedHeap(h, pred, victim, l), h[victim].skip[l];
    assert IsSucc(h, pred, l, Some(victim));
    assert InLayer(h, head, victim, l);
    assert IsSucc(h, victim, l, next);
    assert NodeOK(h[victim]);
    forall m | m in g && l < g[m].layers ensures Less(g[pred], g[m]) ==> Less(h[victim], h[m]) {
      assert NodeOK(h[m]);
    }
  }

  lemma UnlinkOther(h: Heap, head: Id, pred: Id, victim: Id, l: nat, id: Id)
    requires HeapOK(h, head) && CanUnlink(h, head, pred, victim, l) && pred != victim
    requires InLayer(h, head, id, l) && id != pred && id != victim && (Less(h[id], h[pred]) || Less(h[pred], h[id]))
    ensures IsSucc(UnlinkedHeap(h, pred, victim, l), id, l, h[id].skip[l])
  {
    hide LinksOK;
    assert IsSucc(h, pred, l, Some(victim));
    assert IsSucc(h, id, l, h[id].skip[l]);
  }

  lemma UnlinkKeeps(h: Heap, head: Id, pred: Id, victim: Id, l: nat)
    requires HeapOK(h, head) && CanUnlink(h, head, pred, victim, l)
    ensures pred != victim && HeapOK(UnlinkedHeap(h, pred, victim, l), head)
  {
    assert IsSucc(h, pred, l, h[pred].skip[l]);
    var g := UnlinkedHeap(h, pred, victim, l);
    assert NodesOK(g) && LinksOK(g) by { UnlinkLinks(h, head, pred, victim, l); }
    assert HeadOK(g, head) && OneOfAKey(g);
    forall id, l': nat | InLayer(g, head, id, l') ensures IsSucc(g, id, l', g[id].skip[l']) {
      UnlinkSuccs(h, head, pred, victim, l, id, l');
    }
  }

  lemma UnlinkLinks(h: Heap, head: Id, pred: Id, victim: Id, l: nat)
    requires HeapOK(h, head) && CanUnlink(h, head, pred, victim, l) && pred != victim
    ensures NodesOK(UnlinkedHeap(h, pred, victim, l)) && LinksOK(UnlinkedHeap(h, pred, victim, l))
  {
    hide LayersOK, OneOfAKey, IsSucc;
    var g := UnlinkedHeap(h, pred, victim, l);
    assert NodeOK(h[pred]) && NodeOK(h[victim]);
    assert LinkOK(h, victim, l) && LinkOK(h, pred, l);
    forall i, l' | i in g && 0 <= l' < |g[i].skip| ensures LinkOK(g, i, l') {
      assert LinkOK(h, i, l');
    }
  }

  // ---------------------------------------------------------------- a taller head

  /** The new head holds the old head's links and nothing above; now it becomes the head. */
  lemma SwapHeadKeeps(h: Heap, head: Id, taller: Id)
    requires HeapOK(h, head) && taller in h && taller != head && h[taller].isHead && h[taller].height > h[head].height
    requires |h[taller].skip| == h[taller].height
    requires forall l :: 0 <= l < h[head].height ==> h[taller].skip[l] == h[head].skip[l]
    requires forall l :: h[head].height <= l < h[taller].height ==> h[taller].skip[l] == None
    ensures HeapOK(h[taller := h[taller].(reached := h[taller].height)], taller)
  {
    var g := h[taller := h[taller].(reached := h[taller].height)];
    assert NodeOK(h[head]) && NodeOK(h[taller]);
    forall i, l' | i in g && 0 <= l' < |g[i].skip| ensures LinkOK(g, i, l') {
      assert LinkOK(h, i, l');
    }
    forall i, l: nat | InLayer(g, taller, i, l) ensures IsSucc(g, i, l, g[i].skip[l]) {
      if i == taller {
        if l < h[head].height {
          assert InLayer(h, head, head, l);
          assert IsSucc(h, head, l, h[head].skip[l]);
        }
      } else {
        assert InLayer(h, head, i, l);
        assert IsSucc(h, i, l, h[i].skip[l]);
      }
    }
  }
}
