/**
 * fbstring_core and the basic_fbstring operations above it, on a pool of
 * strings named by numbers (the places where the string objects live).
 */
module FBString {
  import opened FBStringState

  /** The place of the one temporary that some operations build. */
  const TEMPORARY: nat := 0

  /** An address: inside a small core, or inside a heap block. */
  datatype Pointer = Inline(id: nat, offset: nat) | InBlock(at: nat, offset: nat)

  /** Where the characters given to append or assign come from. */
  datatype Source = Foreign(bytes: seq<Byte>) | Of(id: nat, from: nat, count: nat)

  predicate Inside(src: Source, texts: map<nat, seq<Byte>>) {
    src.Of? ==> src.id in texts && src.from + src.count <= |texts[src.id]|
  }

  function Chars(src: Source, texts: map<nat, seq<Byte>>): seq<Byte>
    requires Inside(src, texts)
  {
    if src.Foreign? then src.bytes else texts[src.id][src.from..src.from + src.count]
  }

  /** Memory nobody has written yet, or whatever lay next to what was copied. */
  method Uninitialized(n: nat) returns (bytes: seq<Byte>)
    ensures |bytes| == n
  {
    bytes := [];
    while |bytes| < n
      invariant |bytes| <= n
    {
      var b: Byte := *;
      bytes := bytes + [b];
    }
  }

  /** setSmallSize: the size goes in the last byte, the terminator after the text. */
  function WithSmallSize(bytes: seq<Byte>, size: nat): (r: seq<Byte>)
    requires |bytes| == MAX_SMALL + 1 && size <= MAX_SMALL
    ensures SmallShape(Small(r)) && SizeOf(Small(r)) == size && r[..size] == bytes[..size]
  {
    bytes[MAX_SMALL := MAX_SMALL - size][size := 0]
  }

  /** The capacities goodMallocSize may give a block asked to hold `room` characters: exactly that many, or more. */
  predicate Allowed(room: nat, capacity: nat) {
    room <= capacity
  }

  /** A new block with room for at least `room` characters, the text and its terminator copied in. */
  method CopiedWithRoom(bytes: seq<Byte>, size: nat, room: nat) returns (copy: seq<Byte>, capacity: nat)
    requires size <= room && size < |bytes| && bytes[size] == 0
    ensures Allowed(room, capacity) && |copy| == capacity + 1
    ensures copy[..size] == bytes[..size] && copy[size] == 0
  {
    capacity :| room <= capacity;
    var rest := Uninitialized(capacity - size);
    copy := bytes[..size + 1] + rest;
  }

  function Advance(p: Pointer, n: nat): Pointer {
    if p.Inline? then Inline(p.id, p.offset + n) else InBlock(p.at, p.offset + n)
  }

  /** Pointers into different objects are never between one another's ends. */
  predicate SameObject(p: Pointer, q: Pointer) {
    if p.Inline? then q.Inline? && p.id == q.id else q.InBlock? && p.at == q.at
  }

  /** The text has n characters now, and those it kept are the ones it had. */
  predicate Resized(was: seq<Byte>, now: seq<Byte>, n: nat) {
    |now| == n && now[..if n < |was| then n else |was|] == was[..if n < |was| then n else |was|]
  }

  function Spliced(text: seq<Byte>, pos: nat, data: seq<Byte>): (r: seq<Byte>)
    requires pos + |data| <= |text|
    ensures |r| == |text|
  {
    text[..pos] + data + text[pos + |data|..]
  }

  function Max(a: nat, b: nat): nat { if a < b then b else a }

  // ----------------------------------------------------- what reserve promises

  /** capacity(): a shared block has no room. */
  function CapacityOf(c: Core, blocks: Blocks): nat
    requires Fits(c, blocks)
  {
    match c
    case Small(_) => MAX_SMALL
    case Medium(_, _, capacity) => capacity
    case Large(at, size, capacity) => if blocks[at].refs > 1 then size else capacity
  }

  /** reserve finds that the storage will do. */
  predicate Stays(disableSso: bool, c: Core, blocks: Blocks, room: nat)
    requires Fits(c, blocks)
  {
    match c
    case Small(_) => !disableSso && room <= MAX_SMALL
    case Medium(_, _, capacity) => room <= capacity
    case Large(at, _, capacity) => blocks[at].refs <= 1 && room <= capacity
  }

  /** What reserve asks the allocator for otherwise: leaving a shared block keeps the room that block had. */
  function Asked(c: Core, blocks: Blocks, room: nat): nat
    requires Fits(c, blocks)
  {
    if c.Large? && blocks[c.at].refs > 1 then Max(room, c.capacity) else room
  }

  /** The capacities a string may have after reserve(room), over all that the allocator may do. */
  predicate MayHave(disableSso: bool, c: Core, blocks: Blocks, room: nat, capacity: nat)
    requires Fits(c, blocks)
  {
    if Stays(disableSso, c, blocks, room) then capacity == CapacityOf(c, blocks)
    else Allowed(Asked(c, blocks, room), capacity)
  }

  /** The guard of the branch that gives up inline storage for a block that may be smaller. */
  predicate GivesUpInline(disableSso: bool, c: Core, room: nat) {
    disableSso && c.Small? && room < MAX_SMALL
  }

  /** A capacity never shrinks by reserve, whatever the allocator does, exactly unless that branch is taken. */
  lemma NeverShrinksExactly(disableSso: bool, c: Core, blocks: Blocks, room: nat)
    requires Fits(c, blocks)
    ensures (forall capacity: nat | MayHave(disableSso, c, blocks, room, capacity) :: CapacityOf(c, blocks) <= capacity)
            <==> !GivesUpInline(disableSso, c, room)
  {
    if GivesUpInline(disableSso, c, room) {
      assert MayHave(disableSso, c, blocks, room, room);
    }
  }

  /** A default-constructed string without inline storage: reserve(0) may take its capacity from 23 to 0. */
  lemma ReserveMayShrink()
    ensures var c := Small(WithSmallSize(seq(MAX_SMALL + 1, k => 0), 0));
      && Good(map[1 := c], map[]) && Fits(c, map[]) && CapacityOf(c, map[]) == 23 && MayHave(true, c, map[], 0, 0)
  {
    var c := Small(WithSmallSize(seq(MAX_SMALL + 1, k => 0), 0));
    assert Good(map[], map[]);
    SetSmall(map[], map[], 1, c);
    assert map[][1 := c] == map[1 := c];
  }

  // ------------------------------------- what the operations mean on sequences

  datatype Op =
    | Make(i: nat, data: seq<Byte>)
    | TakeOver(i: nat, buffer: seq<Byte>, size: nat)
    | Copy(i: nat, j: nat)
    | MoveFrom(i: nat, j: nat)
    | Drop(i: nat)
    | Exchange(i: nat, j: nat)
    | Adjust(i: nat, act: Act)
    | MoveOver(i: nat, j: nat)

  datatype Act =
    | Room(n: nat)
    | SizeTo(n: nat, c: Byte)
    | AppendFrom(src: Source)
    | AppendCopies(n: nat, c: Byte)
    | AssignFrom(src: Source)
    | AssignString(j: nat)
    | WriteAt(k: nat, c: Byte)

  predicate LegalOn(texts: map<nat, seq<Byte>>, i: nat, act: Act) {
    i in texts &&
    match act
    case AppendFrom(src) => Inside(src, texts)
    case AssignFrom(src) => Inside(src, texts)
    case AssignString(j) => j in texts
    case WriteAt(k, _) => k < |texts[i]|
    case _ => true
  }

  /** New strings go where none is, the others must exist. */
  predicate Legal(texts: map<nat, seq<Byte>>, op: Op) {
    match op
    case Make(i, _) => i !in texts && i != TEMPORARY
    case TakeOver(i, buffer, size) => i !in texts && i != TEMPORARY && size < |buffer| && buffer[size] == 0
    case Copy(i, j) => i !in texts && i != TEMPORARY && j in texts
    case MoveFrom(i, j) => i !in texts && i != TEMPORARY && j in texts
    case Drop(i) => i in texts
    case Exchange(i, j) => i in texts && j in texts
    case Adjust(i, act) => LegalOn(texts, i, act)
    case MoveOver(i, j) => i in texts && j in texts
  }

  ghost function After(texts: map<nat, seq<Byte>>, i: nat, act: Act): seq<Byte>
    requires LegalOn(texts, i, act)
  {
    match act
    case Room(_) => texts[i]
    case SizeTo(n, c) => if n <= |texts[i]| then texts[i][..n] else texts[i] + seq(n - |texts[i]|, k => c)
    case AppendFrom(src) => texts[i] + Chars(src, texts)
    case AppendCopies(n, c) => texts[i] + seq(n, k => c)
    case AssignFrom(src) => Chars(src, texts)
    case AssignString(j) => texts[j]
    case WriteAt(k, c) => texts[i][k := c]
  }

  ghost function Apply(texts: map<nat, seq<Byte>>, op: Op): map<nat, seq<Byte>>
    requires Legal(texts, op)
  {
    match op
    case Make(i, data) => texts[i := data]
    case TakeOver(i, buffer, size) => texts[i := buffer[..size]]
    case Copy(i, j) => texts[i := texts[j]]
    case MoveFrom(i, j) => texts[i := texts[j]][j := []]
    case Drop(i) => texts - {i}
    case Exchange(i, j) => texts[i := texts[j]][j := texts[i]]
    case Adjust(i, act) => texts[i := After(texts, i, act)]
    case MoveOver(i, j) => if i == j then texts else texts[i := texts[j]][j := []]
  }

  ghost predicate AllLegal(texts: map<nat, seq<Byte>>, ops: seq<Op>)
    decreases |ops|
  {
    ops == [] || (Legal(texts, ops[0]) && AllLegal(Apply(texts, ops[0]), ops[1..]))
  }

  ghost function Replay(texts: map<nat, seq<Byte>>, ops: seq<Op>): map<nat, seq<Byte>>
    requires AllLegal(texts, ops)
    decreases |ops|
  {
    if ops == [] then texts else Replay(Apply(texts, ops[0]), ops[1..])
  }

  class Pool {
    /** FBSTRING_DISABLE_SSO. */
    const disableSso: bool
    var cores: Cores
    var blocks: Blocks
    var next: nat

    ghost predicate Valid()
      reads this
    {
      && Good(cores, blocks)
      && (forall at | at in blocks :: at < next)
      && (forall i | i in cores && disableSso && cores[i].Small? :: Fits(cores[i], blocks) && SizeOf(cores[i]) == 0)
    }

    /** Valid, and between operations. */
    ghost predicate Settled()
      reads this
    {
      Valid() && TEMPORARY !in cores
    }

    ghost function Strings(): (texts: map<nat, seq<Byte>>)
      reads this
      requires Valid()
      ensures texts.Keys == cores.Keys
    {
      Texts(cores, blocks)
    }

    /** Only string i changed, and no block but its own. */
    twostate predicate Only(i: nat)
      reads this
    {
      old(Valid()) && Valid() && cores.Keys == old(cores).Keys + {i} &&
      Changes(old(cores), old(blocks), cores, blocks, i)
    }

    lemma Spell(i: nat)
      requires Valid() && i in cores
      ensures Fits(cores[i], blocks) && i in Strings() && Strings()[i] == Text(cores[i], blocks)
      ensures disableSso && cores[i].Small? ==> SizeOf(cores[i]) == 0
      ensures cores[i].Large? ==> 1 <= blocks[cores[i].at].refs
    {
      assert Fits(cores[i], blocks);
      if cores[i].Large? {
        assert CountsAt(cores, blocks[cores[i].at], cores[i].at);
      }
    }

    lemma Stay(i: nat)
      requires Valid() && i in cores
      ensures Changes(cores, blocks, cores, blocks, i)
    {
      NoChange(cores, blocks, i);
    }

    constructor (disableSso: bool)
      ensures Settled() && Strings() == map[] && this.disableSso == disableSso
    {
      this.disableSso := disableSso;
      cores, blocks, next := map[], map[], 0;
    }

    // ------------------------------------------------------------ construction

    /** The default constructor. */
    method Default(i: nat)
      requires Valid() && i !in cores
      modifies this
      ensures Only(i) && Strings()[i] == [] && cores[i].Small? && blocks == old(blocks)
    {
      var junk := Uninitialized(MAX_SMALL + 1);
      var c := Small(WithSmallSize(junk, 0));
      PutSmall(i, c);
    }

    method PutSmall(i: nat, c: Core)
      requires Valid() && (i in cores ==> cores[i].Small?) && SmallShape(c)
      requires disableSso ==> SizeOf(c) == 0
      modifies this
      ensures Only(i) && cores[i] == c && blocks == old(blocks)
    {
      SetSmall(cores, blocks, i, c);
      TextsAfter(cores, blocks, i, c, blocks);
      cores := cores[i := c];
    }

    /** A string that held no block gets a new one. */
    method PutBlock(i: nat, c: Core, b: Block)
      requires Valid() && (i in cores ==> cores[i].Small?)
      requires !c.Small? && c.at == next && HeapShape(c, b) && (b.Counted? ==> b.refs == 1)
      modifies this
      ensures Only(i) && cores[i] == c && blocks == old(blocks)[c.at := b]
    {
      hide Counts, Agree, HeapShape, SmallShape, Text;
      TakeHold(cores, blocks, i, c, b);
      TextsAfter(cores, blocks, i, c, blocks[c.at := b]);
      cores, blocks, next := cores[i := c], blocks[c.at := b], next + 1;
    }

    /** The constructor from characters: small, medium or large by their number. */
    method Construct(i: nat, data: seq<Byte>)
      requires Valid() && i !in cores
      modifies this
      ensures Only(i) && Strings()[i] == data
      ensures Fits(cores[i], blocks) && Unshared(cores[i], blocks)
    {
      var n := |data|;
      if !disableSso && n <= MAX_SMALL {
        var rest := Uninitialized(MAX_SMALL + 1 - n);
        var c := Small(WithSmallSize(data + rest, n));
        PutSmall(i, c);
      } else {
        var bytes, capacity := CopiedWithRoom(data + [0], n, n);
        assert bytes[..n] == data;
        if n <= MAX_MEDIUM {
          PutBlock(i, Medium(next, n, capacity), Plain(bytes));
        } else {
          PutBlock(i, Large(next, n, capacity), Counted(1, bytes));
        }
      }
    }

    /** The copy constructor: large strings only share. */
    method CopyConstruct(i: nat, from: nat)
      requires Valid() && i !in cores && from in cores
      modifies this
      ensures Valid() && i in cores && cores == old(cores)[i := cores[i]]
      ensures from in old(cores) && Strings() == old(Strings())[i := old(Strings())[from]]
      ensures old(cores)[from].Large? ==> cores[i] == old(cores)[from]
    {
      hide Good, Texts, Release;
      Spell(from);
      var c := cores[from];
      match c {
        case Small(_) => PutSmall(i, c);
        case Medium(at, n, _) =>
          var bytes, capacity := CopiedWithRoom(blocks[at].bytes, n, n);
          PutBlock(i, Medium(next, n, capacity), Plain(bytes));
          Spell(i);
        case Large(_, _, _) => PutShared(i, from);
      }
      Spell(i);
    }

    method PutShared(i: nat, from: nat)
      requires Valid() && i !in cores && from in cores && cores[from].Large?
      modifies this
      ensures Valid() && from in cores && cores == old(cores)[i := cores[from]]
      ensures from in old(cores) && Strings() == old(Strings())[i := old(Strings())[from]]
    {
      hide Counts, Agree, HeapShape, SmallShape;
      var c := cores[from];
      assert Fits(c, blocks);
      var b := Bumped(blocks[c.at]);
      Share(cores, blocks, from, i);
      assert Fits(c, blocks[c.at := b]) && Text(c, blocks[c.at := b]) == Text(c, blocks) by {
        assert Keeps(cores[from], blocks, blocks[c.at := b]);
      }
      hide Text;
      TextsAfter(cores, blocks, i, c, blocks[c.at := b]);
      cores, blocks := cores[i := c], blocks[c.at := b];
    }

    /** swap. */
    method Swap(i: nat, j: nat)
      requires Valid() && i in cores && j in cores
      modifies this
      ensures Valid() && cores == old(cores)[i := old(cores)[j]][j := old(cores)[i]]
      ensures blocks == old(blocks) && next == old(next)
      ensures i in old(Strings()) && j in old(Strings())
      ensures Strings() == old(Strings())[i := old(Strings())[j]][j := old(Strings())[i]]
    {
      hide Counts, Agree, HeapShape, SmallShape, Text;
      Trade(cores, blocks, i, j);
      cores := cores[i := cores[j]][j := cores[i]];
    }

    /** The move constructor: the goner is left empty. */
    method MoveConstruct(i: nat, goner: nat)
      requires Valid() && i !in cores && goner in cores
      modifies this
      ensures Valid() && cores.Keys == old(cores).Keys + {i} && blocks == old(blocks)
      ensures goner in old(Strings())
      ensures Strings() == old(Strings())[i := old(Strings())[goner]][goner := []]
    {
      hide Good, Texts, Changes, Release, HeapShape, SmallShape;
      Default(i);
      ChangedText(old(cores), old(blocks), cores, blocks, i);
      Swap(i, goner);
    }

    /** The destructor. */
    method Destroy(i: nat)
      requires Valid() && i in cores
      modifies this
      ensures Valid() && cores == old(cores) - {i} && next == old(next)
      ensures Strings() == old(Strings()) - {i}
      ensures Fits(old(cores)[i], old(blocks)) && blocks == Release(old(cores)[i], old(blocks))
    {
      hide Good, Texts, Changes, Release, HeapShape, SmallShape;
      LetGoNow(i);
      ChangedText(old(cores), old(blocks), cores, blocks, i);
      Drop(i);
      assert cores == old(cores) - {i};
    }

    method Drop(i: nat)
      requires Valid() && i in cores && cores[i].Small?
      modifies this
      ensures Valid() && cores == old(cores) - {i} && blocks == old(blocks) && next == old(next)
      ensures Strings() == old(Strings()) - {i}
    {
      hide Counts, Agree, HeapShape, SmallShape, Text;
      DropSmall(cores, blocks, i);
      cores := cores - {i};
    }

    method LetGoNow(i: nat)
      requires Valid() && i in cores
      modifies this
      ensures Only(i) && cores[i].Small? && Strings()[i] == [] && next == old(next)
      ensures Fits(old(cores)[i], old(blocks)) && blocks == Release(old(cores)[i], old(blocks))
    {
      var junk := Uninitialized(MAX_SMALL + 1);
      LetGoAs(i, Small(WithSmallSize(junk, 0)));
    }

    method LetGoAs(i: nat, c: Core)
      requires Valid() && i in cores && c.Small? && SmallShape(c) && SizeOf(c) == 0
      modifies this
      ensures Only(i) && cores[i] == c && Strings()[i] == [] && next == old(next)
      ensures Fits(old(cores)[i], old(blocks)) && blocks == Release(old(cores)[i], old(blocks))
    {
      hide Counts, Agree, HeapShape, Text, SmallShape, SizeOf;
      LetGo(cores, blocks, i, c);
      var blocks' := Release(cores[i], blocks);
      EmptyText(c, blocks');
      TextsAfter(cores, blocks, i, c, blocks');
      cores, blocks := cores[i := c], blocks';
    }

    lemma EmptyText(c: Core, heap: Blocks)
      requires SmallShape(c) && SizeOf(c) == 0
      ensures Fits(c, heap) && Text(c, heap) == []
    {
    }

    // ------------------------------------------------------------------ storage

    /** A string leaves its storage for a new block. */
    method Move(i: nat, c: Core, b: Block)
      requires Valid() && i in cores
      requires !c.Small? && c.at == next && HeapShape(c, b) && (b.Counted? ==> b.refs == 1)
      modifies this
      ensures Only(i) && cores[i] == c && c.at in blocks && blocks[c.at] == b
      ensures Fits(old(cores)[i], old(blocks)) && blocks == Release(old(cores)[i], old(blocks))[c.at := b]
    {
      hide Counts, Agree, HeapShape, SmallShape, Text;
      assert Fits(cores[i], blocks);
      Relocate(cores, blocks, i, c, b);
      var blocks' := Release(cores[i], blocks)[c.at := b];
      TextsAfter(cores, blocks, i, c, blocks');
      cores, blocks, next := cores[i := c], blocks', next + 1;
    }

    /** A string writes into the block that only it holds. */
    method Overwrite(i: nat, c: Core, b: Block)
      requires Valid() && i in cores && !cores[i].Small? && Fits(cores[i], blocks) && Unshared(cores[i], blocks)
      requires !c.Small? && c.at == cores[i].at && HeapShape(c, b)
      requires b.Plain? == blocks[c.at].Plain? && (b.Counted? ==> b.refs == 1)
      modifies this
      ensures Only(i) && cores[i] == c && blocks == old(blocks)[c.at := b]
    {
      hide Counts, Agree, HeapShape, SmallShape, Text;
      Rewrite(cores, blocks, i, c, b);
      TextsAfter(cores, blocks, i, c, blocks[c.at := b]);
      cores, blocks := cores[i := c], blocks[c.at := b];
    }

    function Capacity(i: nat): nat
      reads this
      requires i in cores && Fits(cores[i], blocks)
    {
      CapacityOf(cores[i], blocks)
    }

    /**
     * The characters stay; the storage is this string's own, has a capacity that reserve may give it,
     * and is no smaller than before unless inline storage was given up.
     */
    twostate predicate Roomy(i: nat, room: nat)
      reads this
    {
      && Only(i) && i in old(cores) && Strings()[i] == old(Strings())[i]
      && Fits(cores[i], blocks) && Unshared(cores[i], blocks) && room <= Capacity(i)
      && old(Fits(cores[i], blocks))
      && MayHave(disableSso, old(cores)[i], old(blocks), room, Capacity(i))
      && (old(Capacity(i)) <= Capacity(i) || GivesUpInline(disableSso, old(cores)[i], room))
    }

    /** unshare. */
    method Unshare(i: nat, room: nat)
      requires Valid() && i in cores && cores[i].Large? && Fits(cores[i], blocks) && !Unshared(cores[i], blocks)
      modifies this
      ensures Roomy(i, room) && cores[i].Large?
      ensures forall at | at in old(blocks) :: at in blocks && blocks[at].bytes == old(blocks)[at].bytes
    {
      hide Good, Texts;
      Spell(i);
      var c := cores[i];
      var bytes, capacity := CopiedWithRoom(blocks[c.at].bytes, c.size, Max(room, c.capacity));
      Move(i, Large(next, c.size, capacity), Counted(1, bytes));
      Spell(i);
    }

    /** reserveSmall. */
    method ReserveSmall(i: nat, room: nat)
      requires Valid() && i in cores && cores[i].Small?
      modifies this
      ensures Roomy(i, room)
      ensures cores[i].Small? <==> !disableSso && room <= MAX_SMALL
      ensures room > MAX_MEDIUM ==> cores[i].Large?
      ensures cores[i].Small? || cores[i].at !in old(blocks)
      ensures forall at | at in old(blocks) :: at in blocks && blocks[at] == old(blocks)[at]
    {
      hide Good, Texts, Changes;
      Spell(i);
      var c := cores[i];
      if !disableSso && room <= MAX_SMALL {
        Stay(i);
      } else {
        var n := SizeOf(c);
        var bytes, capacity := CopiedWithRoom(c.bytes, n, room);
        if room <= MAX_MEDIUM {
          PutBlock(i, Medium(next, n, capacity), Plain(bytes));
        } else {
          PutBlock(i, Large(next, n, capacity), Counted(1, bytes));
        }
        Spell(i);
      }
    }

    /** reserveMedium: realloc, or a large temporary that is swapped in. */
    method ReserveMedium(i: nat, room: nat)
      requires Valid() && i in cores && cores[i].Medium? && i != TEMPORARY && TEMPORARY !in cores
      modifies this
      ensures Roomy(i, room) && !cores[i].Small?
    {
      hide Good, Texts, Release, Changes;
      Spell(i);
      var c := cores[i];
      if room <= c.capacity {
        Stay(i);
        return;
      }
      if room <= MAX_MEDIUM {
        var bytes, capacity := CopiedWithRoom(blocks[c.at].bytes, c.size, room);
        Move(i, Medium(next, c.size, capacity), Plain(bytes));
        Spell(i);
      } else {
        BecomeLarge(i, room);
      }
    }

    method BecomeLarge(i: nat, room: nat)
      requires Valid() && i in cores && cores[i].Medium? && i != TEMPORARY && TEMPORARY !in cores
      requires Fits(cores[i], blocks) && cores[i].capacity < room && MAX_MEDIUM < room
      modifies this
      ensures Roomy(i, room) && cores[i].Large?
    {
      hide Good, Texts, HeapShape, SmallShape, Changes;
      LargeTemporary(i, room);
      Unchanged(old(cores), old(blocks), cores, blocks, TEMPORARY, i);
      AdoptTemporary(i, old(cores), old(blocks));
      Spell(i);
    }

    method LargeTemporary(i: nat, room: nat)
      requires Valid() && i in cores && cores[i].Medium? && TEMPORARY !in cores
      requires Fits(cores[i], blocks) && cores[i].capacity < room && MAX_MEDIUM < room
      modifies this
      ensures Only(TEMPORARY) && cores[TEMPORARY].Large? && Strings()[TEMPORARY] == old(Strings())[i]
      ensures cores[TEMPORARY].at !in old(blocks) && room <= cores[TEMPORARY].capacity
      ensures cores[TEMPORARY].at in blocks && blocks[cores[TEMPORARY].at].Counted?
      ensures blocks[cores[TEMPORARY].at].refs == 1
    {
      hide Good, Texts, Release, Changes;
      Spell(i);
      var c := cores[i];
      Default(TEMPORARY);
      ghost var c1, b1 := cores, blocks;
      ReserveSmall(TEMPORARY, room);
      TwoChanges(old(cores), old(blocks), c1, b1, cores, blocks, TEMPORARY);
      ghost var c2, b2 := cores, blocks;
      Spell(TEMPORARY);
      var t := cores[TEMPORARY];
      var bytes := blocks[c.at].bytes[..c.size + 1] + blocks[t.at].bytes[c.size + 1..];
      assert bytes[..c.size] == blocks[c.at].bytes[..c.size];
      Overwrite(TEMPORARY, Large(t.at, c.size, t.capacity), Counted(1, bytes));
      TwoChanges(old(cores), old(blocks), c2, b2, cores, blocks, TEMPORARY);
      Spell(TEMPORARY);
    }

    /** The temporary is swapped with string i and destroyed with what i held. */
    method Adopt(i: nat)
      requires Valid() && i in cores && TEMPORARY in cores && i != TEMPORARY
      modifies this
      ensures Valid() && cores == old(cores)[i := old(cores)[TEMPORARY]] - {TEMPORARY}
      ensures TEMPORARY in old(Strings()) && next == old(next)
      ensures Strings() == old(Strings())[i := old(Strings())[TEMPORARY]] - {TEMPORARY}
      ensures Fits(old(cores)[i], old(blocks)) && blocks == Release(old(cores)[i], old(blocks))
    {
      hide Good, Texts, Release, HeapShape, SmallShape;
      Swap(TEMPORARY, i);
      Destroy(TEMPORARY);
    }

    /** The same, as a change of string i since the temporary was built. */
    method AdoptTemporary(i: nat, ghost before: Cores, ghost heap: Blocks)
      requires Valid() && i in before && TEMPORARY !in before && Changes(before, heap, cores, blocks, TEMPORARY)
      requires i in cores
      modifies this
      ensures Valid() && Changes(before, heap, cores, blocks, i) && cores.Keys == before.Keys
      ensures TEMPORARY in old(cores) && cores[i] == old(cores)[TEMPORARY] && Strings()[i] == old(Strings())[TEMPORARY]
      ensures forall at | at in old(blocks) ::
                Holds(old(cores)[i], at) || (at in blocks && blocks[at] == old(blocks)[at])
    {
      hide Counts, Agree, HeapShape, SmallShape, Text;
      ghost var cores', blocks' := cores, blocks;
      assert TEMPORARY in cores;
      Adopt(i);
      ViaTemporary(before, heap, cores', blocks', cores, blocks, i, TEMPORARY);
    }

    /** reserveLarge. */
    method ReserveLarge(i: nat, room: nat)
      requires Valid() && i in cores && cores[i].Large?
      modifies this
      ensures Roomy(i, room) && cores[i].Large?
    {
      hide Good, Texts, Release, Changes;
      Spell(i);
      var c := cores[i];
      if blocks[c.at].refs > 1 {
        Unshare(i, room);
      } else if room > c.capacity {
        var bytes, capacity := CopiedWithRoom(blocks[c.at].bytes, c.size, room);
        Move(i, Large(next, c.size, capacity), Counted(1, bytes));
        Spell(i);
      } else {
        Stay(i);
      }
    }

    /** reserve. */
    method Reserve(i: nat, room: nat)
      requires Settled() && i in cores
      modifies this
      ensures Roomy(i, room) && Settled()
      ensures !old(cores)[i].Small? ==> !cores[i].Small?
    {
      hide Good, Texts, Release, Changes;
      match cores[i] {
        case Small(_) => ReserveSmall(i, room);
        case Medium(_, _, _) => ReserveMedium(i, room);
        case Large(_, _, _) => ReserveLarge(i, room);
      }
    }

    /** ml_.size_ = n and the terminator after it. */
    method SetSize(i: nat, n: nat)
      requires Valid() && i in cores && !cores[i].Small? && Fits(cores[i], blocks)
      requires n <= cores[i].capacity && (Unshared(cores[i], blocks) || n == cores[i].size)
      modifies this
      ensures Only(i) && !cores[i].Small? && Resized(old(Strings())[i], Strings()[i], n)
      ensures Fits(cores[i], blocks) && (Unshared(old(cores)[i], old(blocks)) ==> Unshared(cores[i], blocks))
    {
      hide Good, Texts, Release, Changes;
      Spell(i);
      var c := cores[i];
      var b := blocks[c.at];
      var bytes := b.bytes[n := 0];
      if c.Medium? {
        Overwrite(i, Medium(c.at, n, c.capacity), Plain(bytes));
      } else if b.refs == 1 {
        Overwrite(i, Large(c.at, n, c.capacity), Counted(1, bytes));
      } else {
        // The write puts a terminator where the shared block has one already.
        assert bytes == b.bytes;
        Stay(i);
      }
      Spell(i);
    }

    /** expandNoinit: make room, then change the size. */
    method ExpandNoinit(i: nat, delta: nat, growth: bool)
      requires Settled() && i in cores
      modifies this
      ensures Only(i) && Settled() && Resized(old(Strings())[i], Strings()[i], |old(Strings())[i]| + delta)
      ensures Fits(cores[i], blocks) && (0 < delta ==> Unshared(cores[i], blocks))
    {
      hide Good, Texts, Release, Changes;
      Spell(i);
      Stay(i);
      var size := SizeOf(cores[i]);
      var newSize := size + delta;
      if cores[i].Small? {
        if !disableSso && newSize <= MAX_SMALL {
          GrowSmall(i, newSize);
          return;
        }
        ReserveSmall(i, if growth then Max(newSize, 2 * MAX_SMALL) else newSize);
      } else if newSize > Capacity(i) {
        Reserve(i, if growth then Max(newSize, 1 + Capacity(i) * 3 / 2) else newSize);
      }
      Spell(i);
      ghost var cores', blocks' := cores, blocks;
      SetSize(i, newSize);
      TwoChanges(old(cores), old(blocks), cores', blocks', cores, blocks, i);
    }

    method GrowSmall(i: nat, n: nat)
      requires Valid() && i in cores && cores[i].Small? && Fits(cores[i], blocks) && n <= MAX_SMALL
      requires disableSso ==> n == 0
      modifies this
      ensures Only(i) && cores[i].Small? && Resized(old(Strings())[i], Strings()[i], n)
      ensures Fits(cores[i], blocks)
    {
      hide Good, Texts;
      Spell(i);
      PutSmall(i, Small(WithSmallSize(cores[i].bytes, n)));
      Spell(i);
    }

    /** Characters written over a part of the text. */
    method Store(i: nat, pos: nat, data: seq<Byte>)
      requires Valid() && i in cores && Fits(cores[i], blocks) && pos + |data| <= SizeOf(cores[i])
      requires data == [] || Unshared(cores[i], blocks)
      modifies this
      ensures Only(i) && Strings()[i] == Spliced(old(Strings())[i], pos, data)
    {
      hide Good, Texts, Release, Changes;
      Spell(i);
      if data == [] {
        Stay(i);
        return;
      }
      var c := cores[i];
      if c.Small? {
        PutSmall(i, Small(Spliced(c.bytes, pos, data)));
      } else {
        var bytes := Spliced(blocks[c.at].bytes, pos, data);
        Overwrite(i, c, if c.Medium? then Plain(bytes) else Counted(1, bytes));
      }
      Spell(i);
    }

    /** shrink. */
    method Shrink(i: nat, delta: nat)
      requires Settled() && i in cores && Fits(cores[i], blocks) && delta <= SizeOf(cores[i])
      modifies this
      ensures Only(i) && Settled() && Strings()[i] == old(Strings())[i][..|old(Strings())[i]| - delta]
    {
      hide Good, Texts, Release, Changes;
      Spell(i);
      var n := SizeOf(cores[i]) - delta;
      if cores[i].Small? {
        GrowSmall(i, n);
      } else if cores[i].Medium? || blocks[cores[i].at].refs == 1 {
        SetSize(i, n);
      } else {
        ShrinkShared(i, delta);
      }
    }

    /** shrinkLarge: the shared block is left to the others. */
    method ShrinkShared(i: nat, delta: nat)
      requires Settled() && i in cores && cores[i].Large? && Fits(cores[i], blocks) && delta <= cores[i].size
      modifies this
      ensures Only(i) && Settled() && Strings()[i] == old(Strings())[i][..|old(Strings())[i]| - delta]
    {
      hide Good, Texts, HeapShape, SmallShape, Changes;
      Spell(i);
      if delta > 0 {
        var c := cores[i];
        TextInBlock(i);
        var kept := blocks[c.at].bytes[..c.size - delta];
        Construct(TEMPORARY, kept);
        AdoptTemporary(i, old(cores), old(blocks));
        assert Strings()[i] == kept;
      } else {
        Stay(i);
      }
    }

    lemma TextInBlock(i: nat)
      requires Valid() && i in cores && !cores[i].Small?
      ensures Fits(cores[i], blocks) && cores[i].size < |blocks[cores[i].at].bytes|
      ensures Strings()[i] == blocks[cores[i].at].bytes[..cores[i].size]
    {
      Spell(i);
    }

    /** mutableData: afterwards the storage may be written. */
    method MutableData(i: nat)
      requires Settled() && i in cores
      modifies this
      ensures Roomy(i, 0) && Settled() && (!old(cores)[i].Large? ==> cores == old(cores))
      ensures forall at | at in old(blocks) :: at in blocks && blocks[at].bytes == old(blocks)[at].bytes
    {
      hide Good, Texts, Release, Changes;
      Spell(i);
      if cores[i].Large? && blocks[cores[i].at].refs > 1 {
        Unshare(i, 0);
      } else {
        Stay(i);
      }
    }

    // ------------------------------------------------------------ basic_fbstring

    /** data(). */
    function Data(i: nat): Pointer
      reads this
      requires i in cores
    {
      if cores[i].Small? then Inline(i, 0) else InBlock(cores[i].at, 0)
    }

    predicate Readable(p: Pointer, n: nat)
      reads this
    {
      if p.Inline? then p.id in cores && cores[p.id].Small? && p.offset + n <= |cores[p.id].bytes|
      else p.at in blocks && p.offset + n <= |blocks[p.at].bytes|
    }

    function Load(p: Pointer, n: nat): seq<Byte>
      reads this
      requires Readable(p, n)
    {
      if p.Inline? then cores[p.id].bytes[p.offset..p.offset + n]
      else blocks[p.at].bytes[p.offset..p.offset + n]
    }

    /** What a pointer into a string's text reads. */
    lemma LoadsText(i: nat, from: nat, n: nat)
      requires Valid() && i in cores && from + n <= |Strings()[i]|
      ensures Readable(Advance(Data(i), from), n)
      ensures Load(Advance(Data(i), from), n) == Strings()[i][from..from + n]
    {
      hide Good, Texts;
      Spell(i);
      var bytes := if cores[i].Small? then cores[i].bytes else blocks[cores[i].at].bytes;
      var size := SizeOf(cores[i]);
      assert Strings()[i] == bytes[..size];
      assert bytes[..size][from..from + n] == bytes[from..from + n];
    }

    /** resize. */
    method Resize(i: nat, n: nat, fill: Byte)
      requires Settled() && i in cores
      modifies this
      ensures Only(i) && Settled()
      ensures var was := old(Strings())[i];
              Strings()[i] == if n <= |was| then was[..n] else was + seq(n - |was|, k => fill)
    {
      hide Good, Texts, Release, HeapShape, SmallShape, Changes;
      Spell(i);
      var size := SizeOf(cores[i]);
      if n <= size {
        Shrink(i, size - n);
      } else {
        Fill(i, n - size, fill, false);
      }
    }

    /** append(n, c), and the growing half of resize. */
    method Fill(i: nat, n: nat, fill: Byte, growth: bool)
      requires Settled() && i in cores
      modifies this
      ensures Only(i) && Settled() && Strings()[i] == old(Strings())[i] + seq(n, k => fill)
    {
      hide Good, Texts, Release, HeapShape, SmallShape, Changes;
      Spell(i);
      var size := SizeOf(cores[i]);
      ExpandNoinit(i, n, growth);
      Spell(i);
      var data := seq(n, k => fill);
      ghost var cores', blocks' := cores, blocks;
      Store(i, size, data);
      TwoChanges(old(cores), old(blocks), cores', blocks', cores, blocks, i);
      assert Strings()[i] == old(Strings())[i] + data;
    }

    /** push_back. */
    method PushBack(i: nat, c: Byte)
      requires Settled() && i in cores
      modifies this
      ensures Only(i) && Settled() && Strings()[i] == old(Strings())[i] + [c]
    {
      Fill(i, 1, c, true);
      assert seq(1, k => c) == [c];
    }

    /** append: the characters may be the string's own, or share its block. */
    method Append(i: nat, src: Source)
      requires Settled() && i in cores && Inside(src, Strings())
      modifies this
      ensures Only(i) && Settled()
      ensures Strings()[i] == old(Strings())[i] + Chars(src, old(Strings()))
    {
      hide Good, Texts, Release, HeapShape, SmallShape, Changes;
      var n := if src.Foreign? then |src.bytes| else src.count;
      if n == 0 {
        Stay(i);
        return;
      }
      Spell(i);
      var size := SizeOf(cores[i]);
      var data;
      if src.Foreign? {
        data := src.bytes;
        ExpandNoinit(i, n, true);
      } else {
        data := ExpandAndFetch(i, src.id, src.from, n);
      }
      Spell(i);
      ghost var cores', blocks' := cores, blocks;
      Store(i, size, data);
      TwoChanges(old(cores), old(blocks), cores', blocks', cores, blocks, i);
      assert Strings()[i] == old(Strings())[i] + data;
    }

    /** The string grows; a source inside its old storage is looked up in the new one. */
    method ExpandAndFetch(i: nat, j: nat, from: nat, n: nat) returns (data: seq<Byte>)
      requires Settled() && i in cores && j in cores && 0 < n && from + n <= |Strings()[j]|
      modifies this
      ensures Only(i) && Settled() && Resized(old(Strings())[i], Strings()[i], |old(Strings())[i]| + n)
      ensures Fits(cores[i], blocks) && Unshared(cores[i], blocks)
      ensures data == old(Strings())[j][from..from + n]
    {
      hide Good, Texts, Release, HeapShape, SmallShape, Unshared, Changes;
      Spell(i);
      var size, start := SizeOf(cores[i]), Data(i);
      var p := Advance(Data(j), from);
      var aliased := SameObject(start, p) && p.offset < size;
      if aliased {
        SameText(i, j);
      }
      ExpandNoinit(i, n, true);
      if aliased {
        PrefixSlice(old(Strings())[i], Strings()[i], from, n);
        LoadsText(i, from, n);
        data := Load(Advance(Data(i), p.offset - start.offset), n);
      } else {
        Unchanged(old(cores), old(blocks), cores, blocks, i, j);
        LoadsText(j, from, n);
        data := Load(p, n);
      }
    }

    lemma PrefixSlice(was: seq<Byte>, now: seq<Byte>, from: nat, n: nat)
      requires Resized(was, now, |was| + n) && from + n <= |was|
      ensures now[from..from + n] == was[from..from + n]
    {
      assert now[..|was|] == was[..|was|];
      assert now[from..from + n] == now[..|was|][from..from + n];
    }

    /** Strings with their characters at one address have the same ones. */
    lemma SameText(i: nat, j: nat)
      requires Valid() && i in cores && j in cores && SameObject(Data(i), Data(j))
      ensures Strings()[i] == Strings()[j]
    {
      assert Compatible(cores[i], cores[j]);
    }

    /** assign: the characters may be a part of the string's own. */
    method Assign(i: nat, src: Source)
      requires Settled() && i in cores && Inside(src, Strings())
      modifies this
      ensures Only(i) && Settled() && Strings()[i] == Chars(src, old(Strings()))
    {
      hide Good, Texts, Release, HeapShape, SmallShape, Changes;
      var n := if src.Foreign? then |src.bytes| else src.count;
      Spell(i);
      if n == 0 {
        Resize(i, 0, 0);
      } else if n <= SizeOf(cores[i]) {
        AssignOver(i, src, n);
      } else {
        AssignLonger(i, src, n);
      }
    }

    method AssignOver(i: nat, src: Source, n: nat)
      requires Settled() && i in cores && Inside(src, Strings()) && n <= |Strings()[i]|
      requires n == |Chars(src, Strings())| && 0 < n
      modifies this
      ensures Only(i) && Settled() && Strings()[i] == Chars(src, old(Strings()))
    {
      hide Good, Texts, Release, HeapShape, SmallShape, Changes;
      var data := FetchForWrite(i, src, n);
      Spell(i);
      ghost var c1, b1 := cores, blocks;
      Store(i, 0, data);
      TwoChanges(old(cores), old(blocks), c1, b1, cores, blocks, i);
      ghost var c2, b2 := cores, blocks;
      Spell(i);
      Shrink(i, SizeOf(cores[i]) - n);
      TwoChanges(old(cores), old(blocks), c2, b2, cores, blocks, i);
    }

    /** mutableData() forks; a source in the old block is still there to be read. */
    method FetchForWrite(i: nat, src: Source, n: nat) returns (data: seq<Byte>)
      requires Settled() && i in cores && Inside(src, Strings()) && n == |Chars(src, Strings())|
      modifies this
      ensures Roomy(i, 0) && Settled() && data == Chars(src, old(Strings()))
    {
      hide Good, Texts, Release, HeapShape, SmallShape, Changes, Unshared;
      if src.Foreign? {
        MutableData(i);
        data := src.bytes;
      } else {
        LoadsText(src.id, src.from, n);
        var p := Advance(Data(src.id), src.from);
        ghost var c1, b1 := cores, blocks;
        MutableData(i);
        if p.Inline? && src.id != i {
          Unchanged(c1, b1, cores, blocks, i, src.id);
        }
        data := Load(p, n);
      }
    }

    method AssignLonger(i: nat, src: Source, n: nat)
      requires Settled() && i in cores && Inside(src, Strings()) && |Strings()[i]| < n
      requires n == |Chars(src, Strings())|
      modifies this
      ensures Only(i) && Settled() && Strings()[i] == Chars(src, old(Strings()))
    {
      hide Good, Texts, Release, HeapShape, SmallShape, Changes;
      var data := ReplaceAndFetch(i, src, n);
      Spell(i);
      ghost var c1, b1 := cores, blocks;
      Store(i, 0, data);
      TwoChanges(old(cores), old(blocks), c1, b1, cores, blocks, i);
    }

    /** resize(0) and expandNoinit; a source longer than the string is not in its storage. */
    method ReplaceAndFetch(i: nat, src: Source, n: nat) returns (data: seq<Byte>)
      requires Settled() && i in cores && Inside(src, Strings()) && |Strings()[i]| < n
      requires n == |Chars(src, Strings())|
      modifies this
      ensures Only(i) && Settled() && |Strings()[i]| == n && data == Chars(src, old(Strings()))
      ensures Fits(cores[i], blocks) && Unshared(cores[i], blocks)
    {
      hide Good, Texts, Release, HeapShape, SmallShape, Changes, Unshared;
      var p := if src.Foreign? then Data(i) else Advance(Data(src.id), src.from);
      Resize(i, 0, 0);
      ghost var c1, b1 := cores, blocks;
      ExpandNoinit(i, n, false);
      TwoChanges(old(cores), old(blocks), c1, b1, cores, blocks, i);
      if src.Foreign? {
        data := src.bytes;
      } else {
        Unchanged(old(cores), old(blocks), cores, blocks, i, src.id);
        LoadsText(src.id, src.from, n);
        data := Load(p, n);
      }
    }

    /** Copy assignment: by value, whatever the category. */
    method CopyAssign(i: nat, j: nat)
      requires Settled() && i in cores && j in cores
      modifies this
      ensures Only(i) && Settled() && Strings()[i] == old(Strings())[j]
    {
      hide Good, Texts, Release, HeapShape, SmallShape, Changes;
      if i == j {
        Stay(i);
        return;
      }
      Spell(j);
      Assign(i, Of(j, 0, SizeOf(cores[j])));
    }

    /** Move assignment: destroy, take the goner's core, leave it empty. */
    method MoveAssign(i: nat, goner: nat)
      requires Settled() && i in cores && goner in cores
      modifies this
      ensures Settled() && goner in old(Strings())
      ensures Strings() == if i == goner then old(Strings())
                           else old(Strings())[i := old(Strings())[goner]][goner := []]
    {
      hide Good, Texts, Changes, Release, HeapShape, SmallShape;
      if i == goner {
        return;
      }
      LetGoNow(i);
      ChangedText(old(cores), old(blocks), cores, blocks, i);
      Swap(i, goner);
    }

    /** A write through mutableData(). */
    method Write(i: nat, k: nat, c: Byte)
      requires Settled() && i in cores && k < |Strings()[i]|
      modifies this
      ensures Only(i) && Settled() && Strings()[i] == old(Strings())[i][k := c]
    {
      hide Good, Texts, Release, HeapShape, SmallShape, Changes;
      MutableData(i);
      Spell(i);
      ghost var c1, b1 := cores, blocks;
      Store(i, k, [c]);
      TwoChanges(old(cores), old(blocks), c1, b1, cores, blocks, i);
    }

    /** The constructor that takes over a malloc'ed, terminated buffer. */
    method Acquire(i: nat, buffer: seq<Byte>, size: nat)
      requires Valid() && i !in cores && size < |buffer| && buffer[size] == 0
      modifies this
      ensures Only(i) && Strings()[i] == buffer[..size]
    {
      if size > 0 {
        PutBlock(i, Medium(next, size, |buffer| - 1), Plain(buffer));
      } else {
        Default(i);
      }
    }

    /** c_str() reads the characters and then a terminator. */
    lemma Terminated(i: nat)
      requires Valid() && i in cores
      ensures Readable(Data(i), |Strings()[i]| + 1)
      ensures Load(Data(i), |Strings()[i]| + 1) == Strings()[i] + [0]
    {
      Spell(i);
    }

    // -------------------------------------------------------------- whole runs

    method Perform(op: Op)
      requires Settled() && Legal(Strings(), op)
      modifies this
      ensures Settled() && Strings() == Apply(old(Strings()), op)
    {
      hide Good, Texts, Release, HeapShape, SmallShape, Counts, Agree;
      match op {
        case Make(i, data) => Construct(i, data);
        case TakeOver(i, buffer, size) => Acquire(i, buffer, size);
        case Copy(i, j) => CopyConstruct(i, j);
        case MoveFrom(i, j) => MoveConstruct(i, j);
        case Drop(i) => Destroy(i);
        case Exchange(i, j) => Swap(i, j);
        case Adjust(i, act) => PerformOn(i, act);
        case MoveOver(i, j) => MoveAssign(i, j);
      }
    }

    method PerformOn(i: nat, act: Act)
      requires Settled() && i in cores && LegalOn(Strings(), i, act)
      modifies this
      ensures Settled() && Strings() == old(Strings())[i := After(old(Strings()), i, act)]
    {
      hide Good, Release, HeapShape, SmallShape, Counts, Agree;
      match act {
        case Room(n) => Reserve(i, n);
        case SizeTo(n, c) => Resize(i, n, c);
        case AppendFrom(src) => Append(i, src);
        case AppendCopies(n, c) => Fill(i, n, c, true);
        case AssignFrom(src) => Assign(i, src);
        case AssignString(j) => CopyAssign(i, j);
        case WriteAt(k, c) => Write(i, k, c);
      }
    }

    /** Over any sequence of operations each string is a character sequence of its own. */
    method Run(ops: seq<Op>)
      requires Settled() && AllLegal(Strings(), ops)
      modifies this
      ensures Settled() && Strings() == Replay(old(Strings()), ops)
    {
      var k := 0;
      while k < |ops|
        invariant k <= |ops| && Settled() && AllLegal(Strings(), ops[k..])
        invariant Replay(Strings(), ops[k..]) == Replay(old(Strings()), ops)
      {
        ghost var rest := ops[k..];
        assert rest[0] == ops[k] && rest[1..] == ops[k + 1..];
        Perform(ops[k]);
        k := k + 1;
      }
    }
  }
}
