/**
 * The memory a set of fbstrings live in: the 24-byte cores, the heap blocks
 * of the medium and large ones, and what must hold between the two for every
 * string to be a character sequence of its own.  The char type is one byte
 * wide and the machine little-endian with 64-bit words.
 */
module FBStringState {
  type Byte = b: int | 0 <= b < 256

  const MAX_SMALL: nat := 23
  const MAX_MEDIUM: nat := 254

  /** A small core keeps its characters inline; byte 23 is 23 minus the size. */
  datatype Core =
    | Small(bytes: seq<Byte>)
    | Medium(at: nat, size: nat, capacity: nat)
    | Large(at: nat, size: nat, capacity: nat)

  /** A malloc'ed block, or one with a reference count in front. */
  datatype Block =
    | Plain(bytes: seq<Byte>)
    | Counted(refs: nat, bytes: seq<Byte>)

  type Cores = map<nat, Core>
  type Blocks = map<nat, Block>

  predicate Holds(c: Core, at: nat) {
    !c.Small? && c.at == at
  }

  ghost function Holders(cores: Cores, at: nat): set<nat> {
    set i | i in cores && Holds(cores[i], at)
  }

  predicate SmallShape(c: Core) {
    c.Small? && |c.bytes| == MAX_SMALL + 1 && c.bytes[MAX_SMALL] <= MAX_SMALL &&
    c.bytes[MAX_SMALL - c.bytes[MAX_SMALL]] == 0
  }

  predicate HeapShape(c: Core, b: Block) {
    !c.Small? && c.size <= c.capacity && |b.bytes| == c.capacity + 1 && b.bytes[c.size] == 0 &&
    (c.Medium? <==> b.Plain?)
  }

  predicate Fits(c: Core, blocks: Blocks) {
    if c.Small? then SmallShape(c) else c.at in blocks && HeapShape(c, blocks[c.at])
  }

  function SizeOf(c: Core): nat
    requires c.Small? ==> SmallShape(c)
  {
    if c.Small? then MAX_SMALL - c.bytes[MAX_SMALL] else c.size
  }

  /** The characters of a string. */
  function Text(c: Core, blocks: Blocks): (text: seq<Byte>)
    requires Fits(c, blocks)
    ensures |text| == SizeOf(c)
  {
    if c.Small? then c.bytes[..SizeOf(c)] else blocks[c.at].bytes[..c.size]
  }

  /** Every core is well formed and points at a live block of its own kind. */
  ghost predicate AllFit(cores: Cores, blocks: Blocks) {
    forall i | i in cores :: Fits(cores[i], blocks)
  }

  /** Every block has a holder, and as many as its count says. */
  ghost predicate Counts(cores: Cores, blocks: Blocks) {
    forall at | at in blocks :: CountsAt(cores, blocks[at], at)
  }

  ghost predicate CountsAt(cores: Cores, b: Block, at: nat) {
    |Holders(cores, at)| == (if b.Plain? then 1 else b.refs) && 0 < |Holders(cores, at)|
  }

  /** Strings that share a block agree on the rest of the core too. */
  ghost predicate Agree(cores: Cores) {
    forall i, j | i in cores && j in cores :: Compatible(cores[i], cores[j])
  }

  predicate Compatible(c: Core, d: Core) {
    !c.Small? && !d.Small? && c.at == d.at ==> c == d
  }

  ghost predicate Good(cores: Cores, blocks: Blocks) {
    AllFit(cores, blocks) && Counts(cores, blocks) && Agree(cores)
  }

  ghost function Texts(cores: Cores, blocks: Blocks): map<nat, seq<Byte>>
    requires AllFit(cores, blocks)
  {
    map i | i in cores :: Text(cores[i], blocks)
  }

  /** May the holder of c write into its storage? */
  predicate Unshared(c: Core, blocks: Blocks)
    requires Fits(c, blocks)
  {
    c.Large? ==> blocks[c.at].refs == 1
  }

  /** Letting go of a core's storage: free, or decrement and free at zero. */
  function Release(c: Core, blocks: Blocks): Blocks
    requires Fits(c, blocks)
  {
    if c.Small? then blocks
    else if c.Medium? || blocks[c.at].refs <= 1 then blocks - {c.at}
    else blocks[c.at := Counted(blocks[c.at].refs - 1, blocks[c.at].bytes)]
  }

  /** A block is live exactly while some string holds it, and its count is of those. */
  lemma LiveIffHeld(cores: Cores, blocks: Blocks, at: nat)
    requires Good(cores, blocks)
    ensures at in blocks <==> exists i :: i in cores && Holds(cores[i], at)
    ensures at in blocks && blocks[at].Counted? ==> blocks[at].refs == |Holders(cores, at)|
  {
    if at in blocks {
      assert CountsAt(cores, blocks[at], at);
      var i :| i in Holders(cores, at);
      assert i in cores && Holds(cores[i], at);
    }
  }

  // ------------------------------------------------------------------ holders

  lemma HoldersSet(cores: Cores, i: nat, c: Core, at: nat)
    ensures Holders(cores[i := c], at) ==
            (if Holds(c, at) then Holders(cores, at) + {i} else Holders(cores, at) - {i})
  {
  }

  lemma HoldersDrop(cores: Cores, i: nat, at: nat)
    ensures Holders(cores - {i}, at) == Holders(cores, at) - {i}
  {
  }

  lemma AloneMeansOnly(cores: Cores, i: nat, at: nat)
    requires |Holders(cores, at)| == 1 && i in cores && Holds(cores[i], at)
    ensures Holders(cores, at) == {i}
  {
    var rest := Holders(cores, at) - {i};
    assert Holders(cores, at) == rest + {i};
    assert |rest| == 0;
  }

  /** A holder that may write is the only one. */
  lemma UnsharedIsAlone(cores: Cores, blocks: Blocks, i: nat)
    requires Good(cores, blocks) && i in cores && !cores[i].Small? && Unshared(cores[i], blocks)
    ensures Holders(cores, cores[i].at) == {i}
  {
    var at := cores[i].at;
    assert Fits(cores[i], blocks);
    assert CountsAt(cores, blocks[at], at);
    AloneMeansOnly(cores, i, at);
  }

  // ------------------------------------------------------- what a change keeps

  /** Every string but i is where it was, with the characters it had. */
  ghost predicate OthersKeep(cores: Cores, blocks: Blocks, blocks': Blocks, i: nat) {
    forall j | j in cores && j != i :: Keeps(cores[j], blocks, blocks')
  }

  ghost predicate Keeps(c: Core, blocks: Blocks, blocks': Blocks) {
    Fits(c, blocks) && Fits(c, blocks') && Text(c, blocks) == Text(c, blocks')
  }

  lemma FitsAfter(cores: Cores, blocks: Blocks, i: nat, c: Core, blocks': Blocks)
    requires OthersKeep(cores, blocks, blocks', i) && Fits(c, blocks')
    ensures AllFit(cores[i := c], blocks')
  {
    var cores' := cores[i := c];
    forall j | j in cores' ensures Fits(cores'[j], blocks') {
      assert j != i ==> Keeps(cores[j], blocks, blocks');
    }
  }

  lemma AgreeAfter(cores: Cores, i: nat, c: Core)
    requires Agree(cores)
    requires forall j | j in cores && j != i :: Compatible(cores[j], c)
    ensures Agree(cores[i := c])
  {
    var cores' := cores[i := c];
    forall j, k | j in cores' && k in cores' ensures Compatible(cores'[j], cores'[k]) {
    }
  }

  /** Storage that i does not hold is not counted for it. */
  lemma CountsElsewhere(cores: Cores, i: nat, c: Core, b: Block, at: nat)
    requires CountsAt(cores, b, at) && !Holds(c, at)
    requires i in cores ==> !Holds(cores[i], at)
    ensures CountsAt(cores[i := c], b, at)
  {
    HoldersSet(cores, i, c, at);
    assert Holders(cores, at) - {i} == Holders(cores, at);
  }

  /** Letting go of its storage leaves the other strings as they were. */
  lemma LetGo(cores: Cores, blocks: Blocks, i: nat, small: Core)
    requires Good(cores, blocks) && i in cores && SmallShape(small)
    ensures Fits(cores[i], blocks)
    ensures Good(cores[i := small], Release(cores[i], blocks))
    ensures OthersKeep(cores, blocks, Release(cores[i], blocks), i)
  {
    hide Agree, Text;
    assert Fits(cores[i], blocks);
    var blocks' := Release(cores[i], blocks);
    LetGoKeeps(cores, blocks, i);
    FitsAfter(cores, blocks, i, small, blocks');
    AgreeAfter(cores, i, small);
    assert Counts(cores[i := small], blocks') by {
      forall at | at in blocks' ensures CountsAt(cores[i := small], blocks'[at], at) {
        LetGoCounts(cores, blocks, i, small, at);
      }
    }
  }

  lemma LetGoCounts(cores: Cores, blocks: Blocks, i: nat, small: Core, at: nat)
    requires Counts(cores, blocks) && i in cores && SmallShape(small)
    requires Fits(cores[i], blocks) && at in Release(cores[i], blocks)
    ensures CountsAt(cores[i := small], Release(cores[i], blocks)[at], at)
  {
    assert CountsAt(cores, blocks[at], at);
    if Holds(cores[i], at) {
      HoldersSet(cores, i, small, at);
      assert i in Holders(cores, at);
      assert |Holders(cores, at) - {i}| == |Holders(cores, at)| - 1;
    } else {
      CountsElsewhere(cores, i, small, blocks[at], at);
    }
  }

  lemma LetGoKeeps(cores: Cores, blocks: Blocks, i: nat)
    requires Good(cores, blocks) && i in cores && Fits(cores[i], blocks)
    ensures OthersKeep(cores, blocks, Release(cores[i], blocks), i)
  {
    hide Agree;
    var c := cores[i];
    var blocks' := Release(c, blocks);
    forall j | j in cores && j != i ensures Keeps(cores[j], blocks, blocks') {
      assert Fits(cores[j], blocks);
      if !c.Small? && Unshared(c, blocks) {
        UnsharedIsAlone(cores, blocks, i);
        assert j !in Holders(cores, c.at);
      }
    }
  }

  /** Taking hold of a new block, by a string that held none. */
  lemma TakeHold(cores: Cores, blocks: Blocks, i: nat, c: Core, b: Block)
    requires Good(cores, blocks) && (i in cores ==> cores[i].Small?)
    requires !c.Small? && c.at !in blocks && HeapShape(c, b) && (b.Counted? ==> b.refs == 1)
    ensures Good(cores[i := c], blocks[c.at := b])
    ensures OthersKeep(cores, blocks, blocks[c.at := b], i)
  {
    hide Agree, Text, HeapShape;
    var blocks' := blocks[c.at := b];
    NewBlockKeeps(cores, blocks, i, c.at, b);
    FitsAfter(cores, blocks, i, c, blocks');
    AgreeAfter(cores, i, c);
    forall at | at in blocks' ensures CountsAt(cores[i := c], blocks'[at], at) {
      if at == c.at {
        HoldersSet(cores, i, c, at);
        assert Holders(cores, at) == {};
        assert Holders(cores[i := c], at) == {i};
      } else {
        assert CountsAt(cores, blocks[at], at);
        CountsElsewhere(cores, i, c, blocks[at], at);
      }
    }
  }

  lemma NewBlockKeeps(cores: Cores, blocks: Blocks, i: nat, at: nat, b: Block)
    requires AllFit(cores, blocks) && at !in blocks
    ensures OthersKeep(cores, blocks, blocks[at := b], i)
    ensures forall j | j in cores :: !Holds(cores[j], at)
  {
    forall j | j in cores ensures Keeps(cores[j], blocks, blocks[at := b]) && !Holds(cores[j], at) {
      assert Fits(cores[j], blocks);
    }
  }

  /** Leaving its old storage for a new block. */
  lemma Relocate(cores: Cores, blocks: Blocks, i: nat, c: Core, b: Block)
    requires Good(cores, blocks) && i in cores && Fits(cores[i], blocks)
    requires !c.Small? && c.at !in blocks && HeapShape(c, b) && (b.Counted? ==> b.refs == 1)
    ensures Good(cores[i := c], Release(cores[i], blocks)[c.at := b])
    ensures OthersKeep(cores, blocks, Release(cores[i], blocks)[c.at := b], i)
  {
    hide Good, HeapShape, Holds;
    var small := Small(seq(MAX_SMALL, k => 0) + [MAX_SMALL]);
    var between := Release(cores[i], blocks);
    LetGo(cores, blocks, i, small);
    TakeHold(cores[i := small], between, i, c, b);
    assert cores[i := small][i := c] == cores[i := c];
    forall j | j in cores && j != i ensures Keeps(cores[j], blocks, between[c.at := b]) {
      assert Keeps(cores[j], blocks, between);
      assert cores[i := small][j] == cores[j];
      assert Keeps(cores[j], between, between[c.at := b]);
    }
  }

  /** What the strings spell once string i has a new core. */
  lemma TextsAfter(cores: Cores, blocks: Blocks, i: nat, c: Core, blocks': Blocks)
    requires AllFit(cores, blocks) && OthersKeep(cores, blocks, blocks', i) && Fits(c, blocks')
    requires AllFit(cores[i := c], blocks')
    ensures Texts(cores[i := c], blocks') == Texts(cores, blocks)[i := Text(c, blocks')]
  {
    forall j | j in cores && j != i
      ensures Fits(cores[j], blocks) && Fits(cores[j], blocks') && Text(cores[j], blocks) == Text(cores[j], blocks')
    {
      assert Keeps(cores[j], blocks, blocks');
    }
  }

  /** Writing through a core that is its block's only holder. */
  lemma Rewrite(cores: Cores, blocks: Blocks, i: nat, c: Core, b: Block)
    requires Good(cores, blocks) && i in cores && !cores[i].Small?
    requires Fits(cores[i], blocks) && Unshared(cores[i], blocks)
    requires !c.Small? && c.at == cores[i].at && HeapShape(c, b)
    requires b.Plain? == blocks[c.at].Plain? && (b.Counted? ==> b.refs == 1)
    ensures Good(cores[i := c], blocks[c.at := b])
    ensures OthersKeep(cores, blocks, blocks[c.at := b], i)
  {
    hide Agree, Text, HeapShape;
    var blocks' := blocks[c.at := b];
    UnsharedIsAlone(cores, blocks, i);
    forall j | j in cores && j != i ensures !Holds(cores[j], c.at) {
      assert j !in Holders(cores, c.at);
    }
    AloneKeeps(cores, blocks, i, c.at, b);
    FitsAfter(cores, blocks, i, c, blocks');
    AgreeAfter(cores, i, c);
    forall at | at in blocks' ensures CountsAt(cores[i := c], blocks'[at], at) {
      assert CountsAt(cores, blocks[at], at);
      if at == c.at {
        HoldersSet(cores, i, c, at);
        assert Holders(cores[i := c], at) == {i};
      } else {
        CountsElsewhere(cores, i, c, blocks[at], at);
      }
    }
  }

  lemma AloneKeeps(cores: Cores, blocks: Blocks, i: nat, at: nat, b: Block)
    requires AllFit(cores, blocks)
    requires forall j | j in cores && j != i :: !Holds(cores[j], at)
    ensures OthersKeep(cores, blocks, blocks[at := b], i)
  {
    forall j | j in cores && j != i ensures Keeps(cores[j], blocks, blocks[at := b]) {
      assert Fits(cores[j], blocks);
    }
  }

  /** Writing inside a small core, or adding one. */
  lemma SetSmall(cores: Cores, blocks: Blocks, i: nat, c: Core)
    requires Good(cores, blocks) && (i in cores ==> cores[i].Small?) && SmallShape(c)
    ensures Good(cores[i := c], blocks)
    ensures OthersKeep(cores, blocks, blocks, i)
  {
    hide Agree, Text, HeapShape;
    forall j | j in cores && j != i ensures Keeps(cores[j], blocks, blocks) {
      assert Fits(cores[j], blocks);
    }
    FitsAfter(cores, blocks, i, c, blocks);
    AgreeAfter(cores, i, c);
    forall at | at in blocks ensures CountsAt(cores[i := c], blocks[at], at) {
      assert CountsAt(cores, blocks[at], at);
      CountsElsewhere(cores, i, c, blocks[at], at);
    }
  }

  /** Taking out a core that holds nothing. */
  lemma DropSmall(cores: Cores, blocks: Blocks, i: nat)
    requires Good(cores, blocks) && i in cores && cores[i].Small?
    ensures Good(cores - {i}, blocks)
  {
    var cores' := cores - {i};
    forall j | j in cores' ensures Fits(cores'[j], blocks) {
      assert Fits(cores[j], blocks);
    }
    forall at | at in blocks ensures CountsAt(cores', blocks[at], at) {
      assert CountsAt(cores, blocks[at], at);
      HoldersDrop(cores, i, at);
      assert Holders(cores, at) - {i} == Holders(cores, at);
    }
  }

  /** The block with one more reference. */
  function Bumped(b: Block): Block {
    if b.Plain? then b else Counted(b.refs + 1, b.bytes)
  }

  /** One more string on a counted block. */
  lemma Share(cores: Cores, blocks: Blocks, i: nat, j: nat)
    requires Good(cores, blocks) && i in cores && cores[i].Large? && j !in cores
    requires Fits(cores[i], blocks)
    ensures Good(cores[j := cores[i]], blocks[cores[i].at := Bumped(blocks[cores[i].at])])
    ensures OthersKeep(cores, blocks, blocks[cores[i].at := Bumped(blocks[cores[i].at])], j)
  {
    hide Agree, Text;
    var c := cores[i];
    var b := Bumped(blocks[c.at]);
    var blocks' := blocks[c.at := b];
    BumpKeeps(cores, blocks, j, c.at);
    FitsAfter(cores, blocks, j, c, blocks');
    AgreeWithCopy(cores, i, j);
    forall at | at in blocks' ensures CountsAt(cores[j := c], blocks'[at], at) {
      assert CountsAt(cores, blocks[at], at);
      if at == c.at {
        HoldersSet(cores, j, c, at);
        assert j !in Holders(cores, at);
        assert |Holders(cores, at) + {j}| == |Holders(cores, at)| + 1;
      } else {
        CountsElsewhere(cores, j, c, blocks[at], at);
      }
    }
  }

  lemma AgreeWithCopy(cores: Cores, i: nat, j: nat)
    requires Agree(cores) && i in cores && !cores[i].Small?
    ensures Agree(cores[j := cores[i]])
  {
    AgreeAfter(cores, j, cores[i]);
  }

  lemma BumpKeeps(cores: Cores, blocks: Blocks, i: nat, at: nat)
    requires AllFit(cores, blocks) && at in blocks
    ensures OthersKeep(cores, blocks, blocks[at := Bumped(blocks[at])], i)
  {
    var b := Bumped(blocks[at]);
    assert b.bytes == blocks[at].bytes;
    forall k | k in cores && k != i ensures Keeps(cores[k], blocks, blocks[at := b]) {
      assert Fits(cores[k], blocks);
    }
  }

  /** Two strings trade cores. */
  lemma Trade(cores: Cores, blocks: Blocks, i: nat, j: nat)
    requires Good(cores, blocks) && i in cores && j in cores
    ensures Good(cores[i := cores[j]][j := cores[i]], blocks)
  {
    hide Text, HeapShape, SmallShape;
    var cores' := cores[i := cores[j]][j := cores[i]];
    forall k | k in cores' ensures Fits(cores'[k], blocks) {
      assert Fits(cores[if k == i then j else if k == j then i else k], blocks);
    }
    forall at | at in blocks ensures CountsAt(cores', blocks[at], at) {
      assert CountsAt(cores, blocks[at], at);
      TradeHolders(cores, i, j, at);
    }
    TradeAgree(cores, i, j);
  }

  lemma TradeAgree(cores: Cores, i: nat, j: nat)
    requires Agree(cores) && i in cores && j in cores
    ensures Agree(cores[i := cores[j]][j := cores[i]])
  {
    var cores' := cores[i := cores[j]][j := cores[i]];
    forall k, m | k in cores' && m in cores' ensures Compatible(cores'[k], cores'[m]) {
      var k0 := if k == i then j else if k == j then i else k;
      var m0 := if m == i then j else if m == j then i else m;
      assert cores[k0] == cores'[k] && cores[m0] == cores'[m];
    }
  }

  lemma TradeHolders(cores: Cores, i: nat, j: nat, at: nat)
    requires i in cores && j in cores
    ensures |Holders(cores[i := cores[j]][j := cores[i]], at)| == |Holders(cores, at)|
  {
    var cores' := cores[i := cores[j]][j := cores[i]];
    if Holds(cores[i], at) == Holds(cores[j], at) {
      assert Holders(cores', at) == Holders(cores, at);
    } else if Holds(cores[i], at) {
      HolderMoves(cores, i, j, at);
    } else {
      HolderMoves(cores, j, i, at);
      assert cores' == cores[j := cores[i]][i := cores[j]];
    }
  }

  lemma HolderMoves(cores: Cores, i: nat, j: nat, at: nat)
    requires i in cores && j in cores && Holds(cores[i], at) && !Holds(cores[j], at)
    ensures |Holders(cores[i := cores[j]][j := cores[i]], at)| == |Holders(cores, at)|
  {
    hide Holders;
    var was := Holders(cores, at);
    HoldersSet(cores, i, cores[j], at);
    HoldersSet(cores[i := cores[j]], j, cores[i], at);
    assert i in was && j !in was by {
      HoldersAre(cores, i, at);
      HoldersAre(cores, j, at);
    }
    assert |was - {i}| == |was| - 1;
    assert |was - {i} + {j}| == |was|;
  }

  lemma HoldersAre(cores: Cores, i: nat, at: nat)
    ensures i in Holders(cores, at) <==> i in cores && Holds(cores[i], at)
  {
  }

  // ------------------------------------------------- a change to one string

  /** Only string i changed, and no block but its own. */
  ghost predicate Changes(cores: Cores, blocks: Blocks, cores': Cores, blocks': Blocks, i: nat) {
    && AllFit(cores, blocks) && AllFit(cores', blocks') && i in cores'
    && cores' == cores[i := cores'[i]]
    && Texts(cores', blocks') == Texts(cores, blocks)[i := Text(cores'[i], blocks')]
    && (cores'[i].Small? || cores'[i].at !in blocks || (i in cores && Holds(cores[i], cores'[i].at)))
    && forall at | at in blocks ::
         (i in cores && Holds(cores[i], at)) || (at in blocks' && blocks'[at] == blocks[at])
  }

  lemma NoChange(cores: Cores, blocks: Blocks, i: nat)
    requires AllFit(cores, blocks) && i in cores
    ensures Changes(cores, blocks, cores, blocks, i)
  {
    assert Texts(cores, blocks) == Texts(cores, blocks)[i := Text(cores[i], blocks)];
  }

  lemma TwoChanges(c0: Cores, b0: Blocks, c1: Cores, b1: Blocks, c2: Cores, b2: Blocks, i: nat)
    requires Changes(c0, b0, c1, b1, i) && Changes(c1, b1, c2, b2, i)
    ensures Changes(c0, b0, c2, b2, i)
  {
    hide Fits, Text;
    assert Texts(c2, b2) == Texts(c0, b0)[i := Text(c2[i], b2)];
    assert c2 == c0[i := c2[i]];
  }

  /** A string that was not changed. */
  lemma Unchanged(cores: Cores, blocks: Blocks, cores': Cores, blocks': Blocks, i: nat, j: nat)
    requires Changes(cores, blocks, cores', blocks', i) && j in cores && j != i
    ensures j in cores' && cores'[j] == cores[j] && Texts(cores', blocks')[j] == Texts(cores, blocks)[j]
  {
    hide Fits, Text;
    assert cores[i := cores'[i]][j] == cores[j];
  }

  /** Building temporary t and swapping it in changes only string i. */
  lemma ViaTemporary(c0: Cores, b0: Blocks, c1: Cores, b1: Blocks, c2: Cores, b2: Blocks, i: nat, t: nat)
    requires Changes(c0, b0, c1, b1, t) && t !in c0 && i in c0 && i != t
    requires c2 == c1[i := c1[t]] - {t} && Fits(c1[i], b1) && b2 == Release(c1[i], b1)
    requires AllFit(c2, b2) && Texts(c2, b2) == Texts(c1, b1)[i := Texts(c1, b1)[t]] - {t}
    ensures Changes(c0, b0, c2, b2, i)
  {
    hide Text, SmallShape, HeapShape;
    Unchanged(c0, b0, c1, b1, t, i);
    assert c2 == c0[i := c2[i]];
    assert Texts(c2, b2)[i] == Text(c2[i], b2);
    assert Texts(c2, b2) == Texts(c0, b0)[i := Text(c2[i], b2)];
  }

  lemma ChangedText(cores: Cores, blocks: Blocks, cores': Cores, blocks': Blocks, i: nat)
    requires Changes(cores, blocks, cores', blocks', i)
    ensures i in cores' && cores' == cores[i := cores'[i]]
    ensures Texts(cores', blocks') == Texts(cores, blocks)[i := Texts(cores', blocks')[i]]
  {
    hide Fits, Text;
  }
}
