/**
 * The 24 bytes of an fbstring: either characters with the size in the last
 * byte, or three little-endian words whose last one carries the category in
 * its top two bits.
 */
module FBStringLayout {
  import opened FBStringState

  const WORD: nat := 0x1_0000_0000_0000_0000
  /** The capacity is what the category bits leave of a word. */
  const CAPACITY_LIMIT: nat := 0x4000_0000_0000_0000

  function Pack(bytes: seq<Byte>): nat {
    if bytes == [] then 0 else bytes[0] + 256 * Pack(bytes[1..])
  }

  function Unpack(word: nat, n: nat): (bytes: seq<Byte>)
    ensures |bytes| == n
  {
    if n == 0 then [] else [word % 256] + Unpack(word / 256, n - 1)
  }

  /** Bitwise or of two-bit numbers. */
  function Or(a: nat, b: nat): nat
    requires a < 4 && b < 4
  {
    (if a / 2 + b / 2 > 0 then 2 else 0) + (if a % 2 + b % 2 > 0 then 1 else 0)
  }

  /** 0x80 and 0x40 as the top bits of the last byte. */
  function Tag(c: Core): nat
    requires !c.Small?
  {
    if c.Medium? then 2 else 1
  }

  /** setCapacity. */
  function CapacityWord(capacity: nat, tag: nat): nat
    requires capacity < WORD && tag < 4
  {
    Or(capacity / CAPACITY_LIMIT, tag) * CAPACITY_LIMIT + capacity % CAPACITY_LIMIT
  }

  predicate InWords(c: Core) {
    c.Small? || (c.at < WORD && c.size < WORD && c.capacity < WORD)
  }

  function Encode(c: Core): seq<Byte>
    requires InWords(c)
  {
    if c.Small? then c.bytes
    else Unpack(c.at, 8) + Unpack(c.size, 8) + Unpack(CapacityWord(c.capacity, Tag(c)), 8)
  }

  /** category(): the two top bits of the last byte. */
  function CategoryBits(raw: seq<Byte>): nat
    requires |raw| == MAX_SMALL + 1
  {
    raw[MAX_SMALL] / 64
  }

  /** size(): 23 minus the last byte, unless that is negative. */
  function RawSize(raw: seq<Byte>): nat
    requires |raw| == MAX_SMALL + 1
  {
    if MAX_SMALL - raw[MAX_SMALL] >= 0 then MAX_SMALL - raw[MAX_SMALL] else Pack(raw[8..16])
  }

  function Decode(raw: seq<Byte>): Core
    requires |raw| == MAX_SMALL + 1
  {
    if CategoryBits(raw) == 0 then Small(raw)
    else
      var at, size, capacity := Pack(raw[..8]), Pack(raw[8..16]), Pack(raw[16..]) % CAPACITY_LIMIT;
      if CategoryBits(raw) == 2 then Medium(at, size, capacity) else Large(at, size, capacity)
  }

  lemma {:induction false} PackUnpack(word: nat, n: nat, limit: nat)
    requires word < limit && limit == Power(n)
    ensures Pack(Unpack(word, n)) == word
  {
    if n > 0 {
      PackUnpack(word / 256, n - 1, Power(n - 1));
      assert Unpack(word, n)[1..] == Unpack(word / 256, n - 1);
    }
  }

  function Power(n: nat): nat {
    if n == 0 then 1 else 256 * Power(n - 1)
  }

  lemma EightBytes()
    ensures Power(7) == 0x100_0000_0000_0000 && Power(8) == WORD
  {
    assert Power(2) == 0x1_0000;
    assert Power(4) == 0x1_0000_0000;
    assert Power(6) == 0x1_0000_0000_0000;
  }

  /** The last of n bytes is what is left above the others. */
  lemma {:induction false} PackTop(bytes: seq<Byte>)
    requires |bytes| > 0
    ensures 0 <= Pack(bytes) - Power(|bytes| - 1) * bytes[|bytes| - 1] < Power(|bytes| - 1)
  {
    if |bytes| > 1 {
      PackTop(bytes[1..]);
      var last, p := bytes[|bytes| - 1], Power(|bytes| - 2);
      assert bytes[1..][|bytes| - 2] == last;
      assert Power(|bytes| - 1) * last == 256 * (p * last);
    } else {
      assert Pack(bytes[1..]) == 0;
    }
  }

  /** The category survives next to any capacity. */
  lemma TopByte(capacity: nat, tag: nat)
    requires capacity < CAPACITY_LIMIT && tag in {1, 2}
    ensures CapacityWord(capacity, tag) < WORD && CapacityWord(capacity, tag) % CAPACITY_LIMIT == capacity
    ensures Unpack(CapacityWord(capacity, tag), 8)[7] / 64 == tag
  {
    var w := CapacityWord(capacity, tag);
    EightBytes();
    assert w == tag * CAPACITY_LIMIT + capacity;
    PackUnpack(w, 8, WORD);
    PackTop(Unpack(w, 8));
  }

  /** The 24 bytes can be read back exactly when the capacity leaves the category bits free. */
  lemma ReadBack(c: Core)
    requires !c.Small? && InWords(c)
    ensures Decode(Encode(c)) == c <==> c.capacity < CAPACITY_LIMIT
  {
    if c.capacity < CAPACITY_LIMIT {
      var raw := Encode(c);
      var w := CapacityWord(c.capacity, Tag(c));
      TopByte(c.capacity, Tag(c));
      EightBytes();
      PackUnpack(c.at, 8, WORD);
      PackUnpack(c.size, 8, WORD);
      PackUnpack(w, 8, WORD);
      assert raw[..8] == Unpack(c.at, 8) && raw[8..16] == Unpack(c.size, 8) && raw[16..] == Unpack(w, 8);
      assert raw[MAX_SMALL] == Unpack(w, 8)[7];
    }
  }

  /** The first capacity that spoils the category: a medium string of that capacity reads as one of another kind. */
  lemma TooLargeToRead()
    ensures var c := Medium(1, 0, CAPACITY_LIMIT); InWords(c) && Decode(Encode(c)) != c
  {
    ReadBack(Medium(1, 0, CAPACITY_LIMIT));
  }

  /** A well-formed core is told apart by its last byte, and size() needs no test of the category. */
  lemma SizeByLastByte(c: Core, blocks: Blocks)
    requires Fits(c, blocks) && InWords(c) && (c.Small? || c.capacity < CAPACITY_LIMIT)
    ensures Decode(Encode(c)) == c && RawSize(Encode(c)) == SizeOf(c)
  {
    if !c.Small? {
      ReadBack(c);
      TopByte(c.capacity, Tag(c));
      EightBytes();
      PackUnpack(c.size, 8, WORD);
      assert Encode(c)[8..16] == Unpack(c.size, 8);
      assert Encode(c)[MAX_SMALL] == Unpack(CapacityWord(c.capacity, Tag(c)), 8)[7];
    }
  }
}
