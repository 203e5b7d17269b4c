/** The two node kinds of ConcurrentBSkipList: fixed arrays, an element count and, for leaves,
    one packed word of tombstone bits. Each operation is proved against sequences of slots. */
module BSkipNodes {
  import opened Words

  /** What one leaf slot means: its key, its payload, and whether its tombstone bit is set. */
  datatype Slot<P> = Slot(key: int, payload: P, dead: bool)

  ghost predicate Ascending(s: seq<int>) {
    forall i, j :: 0 <= i < j < |s| ==> s[i] < s[j]
  }

  /** Smallest index in [begin, end) whose key is greater than the target, or end. */
  method FindFirstGreater(keys: array<int>, begin: nat, end: nat, target: int) returns (i: nat)
    requires begin <= end <= keys.Length
    ensures begin <= i <= end
    ensures forall j :: begin <= j < i ==> keys[j] <= target
    ensures i < end ==> target < keys[i]
  {
    i := begin;
    while i < end
      invariant begin <= i <= end
      invariant forall j :: begin <= j < i ==> keys[j] <= target
    {
      if target < keys[i] { break; }
      i := i + 1;
    }
  }

  /** Opens a gap at the slot by moving a[slot..n] one place up. */
  method ShiftElementsUp<T>(a: array<T>, slot: nat, n: nat)
    requires slot <= n < a.Length
    modifies a
    ensures forall j :: 0 <= j < slot ==> a[j] == old(a[j])
    ensures forall j :: slot < j <= n ==> a[j] == old(a[j - 1])
  {
    var i := n;
    while i > slot
      invariant slot <= i <= n
      invariant forall j :: 0 <= j <= i ==> a[j] == old(a[j])
      invariant forall j :: i < j <= n ==> a[j] == old(a[j - 1])
    {
      a[i] := a[i - 1];
      i := i - 1;
    }
  }

  /** Opens a gap and stores into it. */
  method InsertElement<T>(a: array<T>, slot: nat, n: nat, x: T)
    requires slot <= n < a.Length
    modifies a
    ensures a[..n + 1] == old(a[..slot]) + [x] + old(a[slot..n])
  {
    ShiftElementsUp(a, slot, n);
    a[slot] := x;
  }

  /** Overwrites a[start..end] with one value. */
  method ClearElements<T>(a: array<T>, start: nat, end: nat, x: T)
    requires start <= end <= a.Length
    modifies a
    ensures forall j :: 0 <= j < start ==> a[j] == old(a[j])
    ensures forall j :: start <= j < end ==> a[j] == x
  {
    for i := start to end
      invariant forall j :: 0 <= j < start ==> a[j] == old(a[j])
      invariant forall j :: start <= j < i ==> a[j] == x
    {
      a[i] := x;
    }
  }

  /** Copies count elements of src from index start on to dst at index at. */
  method CopyElements<T>(src: array<T>, start: nat, count: nat, dst: array<T>, at: nat)
    requires start + count <= src.Length && at + count <= dst.Length && src != dst
    modifies dst
    ensures forall j :: at <= j < at + count ==> dst[j] == src[j - at + start]
    ensures forall j :: 0 <= j < dst.Length && !(at <= j < at + count) ==> dst[j] == old(dst[j])
  {
    for i := 0 to count
      invariant forall j :: at <= j < at + i ==> dst[j] == src[j - at + start]
      invariant forall j :: 0 <= j < dst.Length && !(at <= j < at + i) ==> dst[j] == old(dst[j])
    {
      dst[at + i] := src[start + i];
    }
  }

  class LeafNode<P(0)> {
    const maxKeys: nat          // B
    const wordBits: nat         // width of the tombstone word
    const blank: P              // a default-constructed payload
    const keys: array<int>
    const payloads: array<P>
    var numElements: nat
    var tombstones: nat

    ghost predicate Valid()
      reads this
    {
      && maxKeys <= wordBits
      && keys.Length == maxKeys && payloads.Length == maxKeys
      && numElements <= maxKeys
      && forall i: nat :: i >= numElements ==> !Bit(tombstones, i)
    }

    ghost function Slots(): (s: seq<Slot<P>>)
      requires Valid()
      reads this, keys, payloads
      ensures |s| == numElements
    {
      seq(numElements, (i: nat) requires i < numElements && Valid() reads this, keys, payloads =>
        Slot(keys[i], payloads[i], Bit(tombstones, i)))
    }

    constructor (b: nat, w: nat, blank: P)
      requires b <= w
      ensures Valid() && Slots() == [] && maxKeys == b && wordBits == w && this.blank == blank
      ensures fresh(keys) && fresh(payloads) && tombstones == 0
    {
      maxKeys, wordBits, this.blank := b, w, blank;
      keys := new int[b];
      payloads := new P[b];
      numElements, tombstones := 0, 0;
      new;
      forall i: nat ensures !Bit(0, i) { ZeroBits(i); }
    }

    method Tombstoned(slot: nat) returns (dead: bool)
      requires Valid() && slot < numElements
      ensures dead == Slots()[slot].dead
    {
      RightBit(tombstones, slot, 0);
      dead := BitAnd(ShiftRight(tombstones, slot), 1) == 1;
      AndBit(ShiftRight(tombstones, slot), 1, 0);
      AndOne(ShiftRight(tombstones, slot));
    }

    method SetTombstone(slot: nat)
      requires Valid() && slot < numElements && !Slots()[slot].dead
      modifies this`tombstones
      ensures Valid()
      ensures Slots() == old(Slots())[slot := old(Slots())[slot].(dead := true)]
    {
      var t := BitOr(tombstones, Pow2(slot));
      forall i: nat ensures Bit(t, i) <==> Bit(tombstones, i) || i == slot {
        OrBit(tombstones, Pow2(slot), i);
        OneBit(slot, i);
      }
      tombstones := t;
    }

    method ClearTombstone(slot: nat)
      requires Valid() && slot < numElements && Slots()[slot].dead
      modifies this`tombstones
      ensures Valid()
      ensures Slots() == old(Slots())[slot := old(Slots())[slot].(dead := false)]
    {
      var t := BitAnd(tombstones, BitNot(Pow2(slot), wordBits));
      forall i: nat ensures Bit(t, i) <==> Bit(tombstones, i) && i != slot {
        AndBit(tombstones, BitNot(Pow2(slot), wordBits), i);
        NotBit(Pow2(slot), wordBits, i);
        OneBit(slot, i);
      }
      tombstones := t;
    }

    /** Shifts keys, payloads and tombstone bits at and after the slot one place up. */
    method InsertKeyAtSlot(slot: nat, key: int, payload: P)
      requires Valid() && slot <= numElements < maxKeys && (keys as object) != payloads
      modifies this`numElements, this`tombstones, keys, payloads
      ensures Valid()
      ensures Slots() == old(Slots())[..slot] + [Slot(key, payload, false)] + old(Slots())[slot..]
    {
      ghost var n := numElements;
      ghost var was := tombstones;
      ShiftElementsUp(keys, slot, numElements);
      ShiftElementsUp(payloads, slot, numElements);
      var t := ShiftUpperBits(tombstones, slot, wordBits);
      forall j: nat
        ensures j < slot ==> Bit(t, j) == Bit(was, j)
        ensures j > slot ==> Bit(t, j) == Bit(was, j - 1)
        ensures j == slot || j > n ==> !Bit(t, j)
      {
        ShiftUpperBit(was, slot, n, wordBits, j);
      }
      tombstones := t;
      keys[slot] := key;
      payloads[slot] := payload;
      numElements := numElements + 1;
      ghost var want := old(Slots())[..slot] + [Slot(key, payload, false)] + old(Slots())[slot..];
      forall j | 0 <= j < numElements ensures Slots()[j] == want[j] {
        if j > slot { assert want[j] == old(Slots())[j - 1]; }
      }
    }

    /** Moves the slots from splitIndex on to dest, after the destSlot slots already there. */
    method SplitKeys(dest: LeafNode<P>, splitIndex: nat, destSlot: nat)
      requires Valid() && dest.Valid() && dest != this
      requires maxKeys == dest.maxKeys && wordBits == dest.wordBits
      requires splitIndex <= numElements && dest.numElements == destSlot && dest.tombstones == 0
      requires destSlot + (numElements - splitIndex) <= maxKeys
      requires keys != dest.keys && payloads != dest.payloads
      requires (keys as object) != payloads && (keys as object) != dest.payloads
      requires (dest.keys as object) != payloads && (dest.keys as object) != dest.payloads
      modifies this`numElements, this`tombstones, keys, payloads
      modifies dest`numElements, dest`tombstones, dest.keys, dest.payloads
      ensures Valid() && dest.Valid()
      ensures Slots() == old(Slots())[..splitIndex]
      ensures dest.Slots() == old(dest.Slots()) + old(Slots())[splitIndex..]
    {
      var count := numElements - splitIndex;
      CopyElements(keys, splitIndex, count, dest.keys, destSlot);
      CopyElements(payloads, splitIndex, count, dest.payloads, destSlot);
      ghost var word := tombstones;
      dest.tombstones := MovedBits(tombstones, splitIndex, count, destSlot, wordBits);
      tombstones := KeptBits(tombstones, splitIndex, wordBits);
      var oldNum := numElements;
      numElements := splitIndex;
      dest.numElements := dest.numElements + count;
      SplitWords(word, splitIndex, count, destSlot, wordBits);
      assert dest.Slots() == old(dest.Slots()) + old(Slots())[splitIndex..];
      ClearElements(keys, splitIndex, oldNum, 0);
      ClearElements(payloads, splitIndex, oldNum, blank);
    }

    /** Exact match, or the predecessor slot where a new key would follow. */
    method FindLeafSlot(k: int) returns (slot: nat, exact: bool)
      requires Valid() && numElements > 0 && Ascending(keys[..numElements]) && keys[0] <= k
      ensures slot < numElements
      ensures exact <==> k in keys[..numElements]
      ensures exact ==> keys[slot] == k
      ensures !exact ==> keys[slot] < k && (slot + 1 < numElements ==> k < keys[slot + 1])
    {
      for i := 0 to numElements
        invariant forall j :: 0 <= j < i ==> keys[j] < k
      {
        if keys[i] >= k {
          if keys[i] == k {
            assert keys[..numElements][i] == k;
            return i, true;
          }
          forall j | 0 <= j < numElements ensures keys[j] != k {
            if j > i { assert keys[..numElements][i] < keys[..numElements][j]; }
          }
          return i - 1, false;
        }
      }
      return numElements - 1, false;
    }
  }

  lemma AndOne(w: nat)
    ensures BitAnd(w, 1) == (if Bit(w, 0) then 1 else 0)
  {}

  /** The word after an insert: bits below the slot stay, the rest move up by one. */
  function ShiftUpperBits(w: nat, slot: nat, width: nat): nat {
    var upperMask := BitNot(Pow2(slot) - 1, width);
    BitOr(BitAnd(w, BitNot(upperMask, width)), ShiftLeft(BitAnd(w, upperMask), 1, width))
  }

  lemma ShiftUpperBit(w: nat, slot: nat, n: nat, width: nat, j: nat)
    requires slot <= n < width && forall i: nat :: i >= n ==> !Bit(w, i)
    ensures Bit(ShiftUpperBits(w, slot, width), j) <==> if j < slot then Bit(w, j) else j > slot && Bit(w, j - 1)
  {
    var upperMask := BitNot(Pow2(slot) - 1, width);
    OrBit(BitAnd(w, BitNot(upperMask, width)), ShiftLeft(BitAnd(w, upperMask), 1, width), j);
    AndBit(w, BitNot(upperMask, width), j);
    NotBit(upperMask, width, j);
    NotBit(Pow2(slot) - 1, width, j);
    MaskBit(slot, j);
    LeftBit(BitAnd(w, upperMask), 1, width, j);
    if j > 0 {
      AndBit(w, upperMask, j - 1);
      NotBit(Pow2(slot) - 1, width, j - 1);
      MaskBit(slot, j - 1);
    }
  }

  /** The tombstone word of the right half of a split, behind destSlot slots already there. */
  function MovedBits(w: nat, splitIndex: nat, count: nat, destSlot: nat, width: nat): nat {
    var raw := if splitIndex < width then ShiftRight(w, splitIndex) else 0;
    var moved := if count < width then BitAnd(raw, Pow2(count) - 1) else raw;
    if destSlot < width then ShiftLeft(moved, destSlot, width) else 0
  }

  /** The tombstone word of the left half. */
  function KeptBits(w: nat, splitIndex: nat, width: nat): nat {
    BitAnd(w, if splitIndex < width then Pow2(splitIndex) - 1 else BitNot(0, width))
  }

  lemma MovedBit(w: nat, splitIndex: nat, count: nat, destSlot: nat, width: nat, j: nat)
    requires splitIndex + count <= width && destSlot + count <= width
    requires forall i: nat :: i >= splitIndex + count ==> !Bit(w, i)
    ensures Bit(MovedBits(w, splitIndex, count, destSlot, width), j) <==>
            destSlot <= j < destSlot + count && Bit(w, j - destSlot + splitIndex)
  {
    var raw := if splitIndex < width then ShiftRight(w, splitIndex) else 0;
    var moved := if count < width then BitAnd(raw, Pow2(count) - 1) else raw;
    LeftBit(moved, destSlot, width, j);
    ZeroBits(j);
    if j >= destSlot {
      ZeroBits(j - destSlot);
      AndBit(raw, Pow2(count) - 1, j - destSlot);
      MaskBit(count, j - destSlot);
      RightBit(w, splitIndex, j - destSlot);
    }
  }

  lemma KeptBit(w: nat, splitIndex: nat, width: nat, j: nat)
    requires splitIndex <= width && forall i: nat :: i >= width ==> !Bit(w, i)
    ensures Bit(KeptBits(w, splitIndex, width), j) <==> j < splitIndex && Bit(w, j)
  {
    AndBit(w, if splitIndex < width then Pow2(splitIndex) - 1 else BitNot(0, width), j);
    MaskBit(splitIndex, j);
    NotBit(0, width, j);
    ZeroBits(j);
  }

  lemma SplitWords(w: nat, splitIndex: nat, count: nat, destSlot: nat, width: nat)
    requires splitIndex + count <= width && destSlot + count <= width
    requires forall i: nat :: i >= splitIndex + count ==> !Bit(w, i)
    ensures forall j: nat :: Bit(MovedBits(w, splitIndex, count, destSlot, width), j) <==>
            destSlot <= j < destSlot + count && Bit(w, j - destSlot + splitIndex)
    ensures forall j: nat :: Bit(KeptBits(w, splitIndex, width), j) <==> j < splitIndex && Bit(w, j)
    ensures forall j: nat :: !Bit(0, j)
  {
    forall j: nat
      ensures Bit(MovedBits(w, splitIndex, count, destSlot, width), j) <==>
              destSlot <= j < destSlot + count && Bit(w, j - destSlot + splitIndex)
    {
      MovedBit(w, splitIndex, count, destSlot, width, j);
    }
    forall j: nat ensures Bit(KeptBits(w, splitIndex, width), j) <==> j < splitIndex && Bit(w, j) {
      KeptBit(w, splitIndex, width, j);
    }
    forall j: nat ensures !Bit(0, j) {
      ZeroBits(j);
    }
  }

  class InternalNode {
    const maxKeys: nat
    const keys: array<int>
    const children: array<nat>      // node identities
    var numElements: nat

    ghost predicate Valid()
      reads this
    {
      keys.Length == maxKeys && children.Length == maxKeys && numElements <= maxKeys
    }

    ghost function Keys(): seq<int>
      requires Valid()
      reads this, keys
    {
      keys[..numElements]
    }

    ghost function Children(): seq<nat>
      requires Valid()
      reads this, children
    {
      children[..numElements]
    }

    constructor (b: nat)
      ensures Valid() && maxKeys == b && Keys() == [] && Children() == [] && fresh(keys) && fresh(children)
    {
      maxKeys := b;
      keys := new int[b];
      children := new nat[b];
      numElements := 0;
    }

    /** Child to descend into for k: the last routing key not above k. */
    method FindChild(k: int) returns (slot: nat, found: bool)
      requires Valid() && numElements > 0 && Ascending(Keys()) && keys[0] <= k
      ensures slot < numElements && keys[slot] <= k
      ensures slot + 1 < numElements ==> k < keys[slot + 1]
      ensures found <==> k in Keys()
      ensures found ==> keys[slot] == k
    {
      var i := FindFirstGreater(keys, 1, numElements, k);
      slot := i - 1;
      found := keys[slot] == k;
      forall j | 0 <= j < numElements ensures keys[j] == k ==> j == slot {
        if j < slot {
          assert Keys()[j] < Keys()[slot];
        } else if i < j {
          assert Keys()[i] < Keys()[j];
        }
      }
      if found { assert Keys()[slot] == k; }
    }

    /** Routing key and child go in together; both arrays shift by one from the slot on. */
    method InsertEntry(slot: nat, key: int, child: nat)
      requires Valid() && slot <= numElements < maxKeys && (keys as object) != children
      modifies this`numElements, keys, children
      ensures Valid() && numElements == old(numElements) + 1
      ensures Keys() == old(Keys())[..slot] + [key] + old(Keys())[slot..]
      ensures Children() == old(Children())[..slot] + [child] + old(Children())[slot..]
    {
      InsertElement(keys, slot, numElements, key);
      InsertElement(children, slot, numElements, child);
      numElements := numElements + 1;
    }

    method SplitKeysAndChildren(dest: InternalNode, splitIndex: nat, destSlot: nat)
      requires Valid() && dest.Valid() && dest != this && maxKeys == dest.maxKeys
      requires splitIndex <= numElements && dest.numElements == destSlot
      requires destSlot + (numElements - splitIndex) <= maxKeys
      requires keys != dest.keys && children != dest.children
      requires (keys as object) != dest.children && (dest.keys as object) != children &&
          (dest.keys as object) != dest.children
      modifies this`numElements, dest`numElements, dest.keys, dest.children
      ensures Valid() && dest.Valid()
      ensures Keys() == old(Keys())[..splitIndex] && Children() == old(Children())[..splitIndex]
      ensures dest.Keys() == old(dest.Keys()) + old(Keys())[splitIndex..]
      ensures dest.Children() == old(dest.Children()) + old(Children())[splitIndex..]
    {
      var count := numElements - splitIndex;
      CopyElements(keys, splitIndex, count, dest.keys, destSlot);
      CopyElements(children, splitIndex, count, dest.children, destSlot);
      numElements := splitIndex;
      dest.numElements := dest.numElements + count;
    }
  }
}
