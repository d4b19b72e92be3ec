/** The required-field check that ends every generated `Decode`: a bit set of the fields seen, a mask of
    the fields required, and a popcount/trailing-zeros loop that names the missing ones. */
module RequiredBits {
  import opened Wrappers
  import opened Json
  import opened Schema

  /** `uint8`, lowest bit first. */
  type Word = s: seq<bool> | |s| == 8 witness [false, false, false, false, false, false, false, false]

  const ZERO: Word := [false, false, false, false, false, false, false, false]

  function And(a: seq<bool>, b: seq<bool>): (r: seq<bool>)
    requires |a| == |b|
    ensures |r| == |a| && forall i :: 0 <= i < |a| ==> r[i] == (a[i] && b[i])
  {
    if a == [] then [] else [a[0] && b[0]] + And(a[1..], b[1..])
  }

  function Xor(a: seq<bool>, b: seq<bool>): (r: seq<bool>)
    requires |a| == |b|
    ensures |r| == |a| && forall i :: 0 <= i < |a| ==> r[i] == (a[i] != b[i])
  {
    if a == [] then [] else [a[0] != b[0]] + Xor(a[1..], b[1..])
  }

  /** `(seen & mask) ^ mask` */
  function Missed(seen: Word, mask: Word): Word { Xor(And(seen, mask), mask) }

  /** `w |= 1 << i` */
  function OrBit(w: Word, i: nat): Word
    requires i < 8
  {
    w[i := true]
  }

  /** `w &^= 1 << i` */
  function ClearBit(w: Word, i: nat): Word
    requires i < 8
  {
    w[i := false]
  }

  /** `bits.OnesCount8` */
  function Ones(w: seq<bool>): nat {
    if w == [] then 0 else (if w[0] then 1 else 0) + Ones(w[1..])
  }

  /** `bits.TrailingZeros8` */
  function Zeros(w: seq<bool>): nat {
    if w == [] || w[0] then 0 else 1 + Zeros(w[1..])
  }

  /** The positions of the set bits, ascending; `w` starts at position `at`. */
  function Positions(w: seq<bool>, at: nat): seq<nat> {
    if w == [] then []
    else if w[0] then [at] + Positions(w[1..], at + 1)
    else Positions(w[1..], at + 1)
  }

  lemma OnesArePositions(w: seq<bool>, at: nat)
    ensures Ones(w) == |Positions(w, at)|
  {
  }

  /** One turn of the loop takes the first position off the list. */
  lemma {:induction false} TakeLowest(w: seq<bool>, at: nat)
    requires Positions(w, at) != []
    ensures var t := Zeros(w);
      t < |w| && Positions(w, at)[0] == at + t && Positions(w[t := false], at) == Positions(w, at)[1..]
  {
    if w[0] {
      assert w[0 := false][1..] == w[1..];
      assert Positions(w, at) == [at] + Positions(w[1..], at + 1);
    } else {
      TakeLowest(w[1..], at + 1);
      assert w[Zeros(w) := false][1..] == w[1..][Zeros(w[1..]) := false];
    }
  }

  lemma NoPositions(w: seq<bool>, at: nat)
    requires forall j :: 0 <= j < |w| ==> !w[j]
    ensures Positions(w, at) == []
  {
  }

  function NameOf(names: seq<string>, itoa: nat -> string, i: nat): string {
    if i < |names| then names[i] else itoa(i)
  }

  function NamesOf(names: seq<string>, itoa: nat -> string, byte: nat, bits: seq<nat>): seq<string> {
    if bits == [] then [] else [NameOf(names, itoa, byte * 8 + bits[0])] + NamesOf(names, itoa, byte, bits[1..])
  }

  /** The names of the required bits that are not seen, from byte `i` on. */
  function MissedNames(seen: seq<Word>, masks: seq<Word>, names: seq<string>, itoa: nat -> string, i: nat): seq<string>
    requires i <= |masks| == |seen|
    decreases |seen| - i
  {
    if i == |masks| then []
    else NamesOf(names, itoa, i, Positions(Missed(seen[i], masks[i]), 0))
         + MissedNames(seen, masks, names, itoa, i + 1)
  }

  lemma NextName(w: Word, byte: nat, names: seq<string>, itoa: nat -> string)
    requires Positions(w, 0) != []
    ensures var t := Zeros(w);
      && t < 8 && |Positions(ClearBit(w, t), 0)| == |Positions(w, 0)| - 1
      && NamesOf(names, itoa, byte, Positions(w, 0)) ==
           [NameOf(names, itoa, byte * 8 + t)] + NamesOf(names, itoa, byte, Positions(ClearBit(w, t), 0))
  {
    TakeLowest(w, 0);
  }

  /** The inner loop: one name for each set bit of `left`, lowest first. */
  method AppendMissed(failures: seq<string>, left: Word, byte: nat, names: seq<string>, itoa: nat -> string)
    returns (out: seq<string>)
    ensures out == failures + NamesOf(names, itoa, byte, Positions(left, 0))
  {
    out := failures;
    var result := left;
    OnesArePositions(left, 0);
    var missed := Ones(result);
    for bitN := 0 to missed
      invariant |Positions(result, 0)| == missed - bitN
      invariant out + NamesOf(names, itoa, byte, Positions(result, 0))
             == failures + NamesOf(names, itoa, byte, Positions(left, 0))
    {
      NextName(result, byte, names, itoa);
      var bitIdx := Zeros(result);
      var fieldIdx := byte * 8 + bitIdx;
      var name;
      if fieldIdx < |names| {
        name := names[fieldIdx];
      } else {
        name := itoa(fieldIdx);
      }
      ghost var later := NamesOf(names, itoa, byte, Positions(ClearBit(result, bitIdx), 0));
      ConcatAssoc(out, [name], later);
      out := out + [name];
      result := ClearBit(result, bitIdx);
    }
  }

  lemma NextByte(failures: seq<string>, seen: seq<Word>, masks: seq<Word>, names: seq<string>,
                 itoa: nat -> string, i: nat)
    requires i < |masks| == |seen|
    ensures failures + MissedNames(seen, masks, names, itoa, i) ==
      failures + NamesOf(names, itoa, i, Positions(Missed(seen[i], masks[i]), 0)) +
      MissedNames(seen, masks, names, itoa, i + 1)
  {
    ConcatAssoc(failures, NamesOf(names, itoa, i, Positions(Missed(seen[i], masks[i]), 0)),
      MissedNames(seen, masks, names, itoa, i + 1));
  }

  predicate NonZero(w: Word) {
    exists b :: 0 <= b < 8 && w[b]
  }

  lemma ZeroNames(failures: seq<string>, w: Word, names: seq<string>, itoa: nat -> string, i: nat)
    requires !NonZero(w)
    ensures failures + NamesOf(names, itoa, i, Positions(w, 0)) == failures
  {
    NoPositions(w, 0);
  }

  /** The whole check, for any number of bytes and any masks. */
  method MissedFields(seen: seq<Word>, masks: seq<Word>, names: seq<string>, itoa: nat -> string)
    returns (failures: seq<string>)
    requires |masks| == |seen|
    ensures failures == MissedNames(seen, masks, names, itoa, 0)
  {
    failures := [];
    for i := 0 to |masks|
      invariant failures + MissedNames(seen, masks, names, itoa, i) == MissedNames(seen, masks, names, itoa, 0)
    {
      var result := Missed(seen[i], masks[i]);
      NextByte(failures, seen, masks, names, itoa, i);
      if NonZero(result) {
        failures := AppendMissed(failures, result, i, names, itoa);
      } else {
        ZeroNames(failures, result, names, itoa, i);
      }
    }
  }

  // ---------------------------------------------------------------- what the names are

  /** All bits in a row. */
  function Bits(ws: seq<Word>): (r: seq<bool>)
    ensures |r| == |ws| * 8
  {
    if ws == [] then [] else ws[0] + Bits(ws[1..])
  }

  predicate BitAt(ws: seq<Word>, i: nat)
    requires i < |ws| * 8
  {
    Bits(ws)[i]
  }

  /** The bits that are required and not seen. */
  function MissedBits(seen: seq<Word>, masks: seq<Word>): (r: seq<bool>)
    requires |masks| == |seen|
    ensures |r| == |masks| * 8
  {
    Xor(And(Bits(seen), Bits(masks)), Bits(masks))
  }

  /** The indices that are required and not seen. */
  function MissedIndices(seen: seq<Word>, masks: seq<Word>): seq<nat>
    requires |masks| == |seen|
  {
    Positions(MissedBits(seen, masks), 0)
  }

  /** The indices whose bit is set. */
  function SetIndices(ws: seq<Word>): seq<nat> {
    Positions(Bits(ws), 0)
  }

  predicate SetAt(w: seq<bool>, at: nat, j: nat) {
    at <= j < at + |w| && w[j - at]
  }

  predicate Ascending(m: seq<nat>) {
    forall k, l :: 0 <= k < l < |m| ==> m[k] < m[l]
  }

  /** Positions are exactly where the bits are set, ascending. */
  lemma {:induction false} PositionsExact(w: seq<bool>, at: nat)
    ensures forall j :: j in Positions(w, at) <==> SetAt(w, at, j)
    ensures Ascending(Positions(w, at))
  {
    if w == [] {
    } else {
      PositionsExact(w[1..], at + 1);
      var later := Positions(w[1..], at + 1);
      assert forall j :: SetAt(w, at, j) <==> (j == at && w[0]) || SetAt(w[1..], at + 1, j);
      if w[0] { OneMore(at, later); }
    }
  }

  lemma OneMore(i: nat, m: seq<nat>)
    requires Ascending(m) && forall j :: j in m ==> i < j
    ensures Ascending([i] + m) && forall j :: j in [i] + m <==> j == i || j in m
  {
    assert forall k :: 0 <= k < |m| ==> m[k] in m;
  }

  lemma AfterFirst(a: seq<nat>)
    requires Ascending(a) && a != []
    ensures Ascending(a[1..])
    ensures forall j :: j in a ==> a[0] <= j
    ensures forall j :: j in a[1..] <==> j in a && j != a[0]
  {
    assert a == [a[0]] + a[1..];
  }

  /** Ascending lists with the same elements are the same. */
  lemma {:induction false} SameAscending(a: seq<nat>, b: seq<nat>)
    requires Ascending(a) && Ascending(b) && forall j :: j in a <==> j in b
    ensures a == b
  {
    if a != [] && b != [] {
      assert a[0] in b && b[0] in a;
      AfterFirst(a);
      AfterFirst(b);
      SameAscending(a[1..], b[1..]);
      assert a == [a[0]] + a[1..] && b == [b[0]] + b[1..];
    } else {
      HasElement(a);
      HasElement(b);
    }
  }

  lemma HasElement(a: seq<nat>)
    ensures a != [] ==> exists j :: j in a
  {
    if a != [] { assert a[0] in a; }
  }

  /** A list that ascends and names exactly the set bits is the list of set bits. */
  lemma SetIndicesAre(ws: seq<Word>, required: seq<nat>)
    requires Ascending(required) && forall j :: j in required <==> SetAt(Bits(ws), 0, j)
    ensures SetIndices(ws) == required
  {
    PositionsExact(Bits(ws), 0);
    SameAscending(SetIndices(ws), required);
  }

  /** `MissedIndices` is what its name says: exactly the required indices not seen, ascending. */
  lemma MissedIndicesExact(seen: seq<Word>, masks: seq<Word>)
    requires |masks| == |seen|
    ensures forall j :: j in MissedIndices(seen, masks) <==> 0 <= j < |masks| * 8 && BitAt(masks, j) && !BitAt(seen, j)
    ensures Ascending(MissedIndices(seen, masks))
  {
    var w := MissedBits(seen, masks);
    PositionsExact(w, 0);
    assert forall j: nat :: SetAt(w, 0, j) <==> j < |masks| * 8 && BitAt(masks, j) && !BitAt(seen, j);
  }

  lemma {:induction false} PositionsAppend(a: seq<bool>, b: seq<bool>, at: nat)
    ensures Positions(a + b, at) == Positions(a, at) + Positions(b, at + |a|)
  {
    if a == [] {
      assert a + b == b;
      assert [] + Positions(b, at) == Positions(b, at);
    } else {
      assert (a + b)[1..] == a[1..] + b;
      PositionsAppend(a[1..], b, at + 1);
      if a[0] { ConcatAssoc([at], Positions(a[1..], at + 1), Positions(b, at + |a|)); }
    }
  }

  lemma {:induction false} NamesFrom(names: seq<string>, itoa: nat -> string, byte: nat, w: seq<bool>, at: nat)
    ensures NamesOf(names, itoa, byte, Positions(w, at)) == NamesOf(names, itoa, 0, Positions(w, byte * 8 + at))
  {
    if w == [] {
    } else {
      NamesFrom(names, itoa, byte, w[1..], at + 1);
      var later, later' := Positions(w[1..], at + 1), Positions(w[1..], byte * 8 + at + 1);
      if w[0] {
        assert ([at] + later)[1..] == later && ([byte * 8 + at] + later')[1..] == later';
      }
    }
  }

  lemma {:induction false} NamesAppend(names: seq<string>, itoa: nat -> string, a: seq<nat>, b: seq<nat>)
    ensures NamesOf(names, itoa, 0, a + b) == NamesOf(names, itoa, 0, a) + NamesOf(names, itoa, 0, b)
  {
    if a == [] {
      assert a + b == b;
    } else {
      assert (a + b)[1..] == a[1..] + b;
      NamesAppend(names, itoa, a[1..], b);
    }
  }

  lemma MissedFrom(seen: seq<Word>, masks: seq<Word>, i: nat)
    requires i < |masks| == |seen|
    ensures MissedBits(seen[i..], masks[i..]) == Missed(seen[i], masks[i]) + MissedBits(seen[i + 1..], masks[i + 1..])
  {
    assert seen[i..][1..] == seen[i + 1..] && masks[i..][1..] == masks[i + 1..];
  }

  /** The names of one byte, and of the bits after it. */
  lemma NamesSplit(names: seq<string>, itoa: nat -> string, byte: nat, first: Word, others: seq<bool>)
    ensures NamesOf(names, itoa, 0, Positions(first + others, byte * 8)) ==
      NamesOf(names, itoa, byte, Positions(first, 0)) + NamesOf(names, itoa, 0, Positions(others, byte * 8 + 8))
  {
    PositionsAppend(first, others, byte * 8);
    NamesFrom(names, itoa, byte, first, 0);
    NamesAppend(names, itoa, Positions(first, byte * 8), Positions(others, byte * 8 + 8));
  }

  /** The loop names all missed indices, byte by byte. */
  lemma {:induction false} NamesOfBytes(seen: seq<Word>, masks: seq<Word>, names: seq<string>,
                                        itoa: nat -> string, i: nat)
    requires i <= |masks| == |seen|
    ensures MissedNames(seen, masks, names, itoa, i) ==
      NamesOf(names, itoa, 0, Positions(MissedBits(seen[i..], masks[i..]), i * 8))
    decreases |masks| - i
  {
    if i == |masks| {
    } else {
      var first, others := Missed(seen[i], masks[i]), MissedBits(seen[i + 1..], masks[i + 1..]);
      NamesOfBytes(seen, masks, names, itoa, i + 1);
      MissedFrom(seen, masks, i);
      assert MissedNames(seen, masks, names, itoa, i) ==
        NamesOf(names, itoa, i, Positions(first, 0)) + NamesOf(names, itoa, 0, Positions(others, i * 8 + 8));
      NamesSplit(names, itoa, i, first, others);
    }
  }

  predicate Below(indices: seq<nat>, n: nat) {
    forall k :: 0 <= k < |indices| ==> indices[k] < n
  }

  function Named(names: seq<string>, indices: seq<nat>): seq<string>
    requires Below(indices, |names|)
  {
    if indices == [] then [] else [names[indices[0]]] + Named(names, indices[1..])
  }

  lemma {:induction false} NoFallback(names: seq<string>, itoa: nat -> string, indices: seq<nat>)
    requires Below(indices, |names|)
    ensures NamesOf(names, itoa, 0, indices) == Named(names, indices)
  {
    if indices == [] {
    } else {
      NoFallback(names, itoa, indices[1..]);
    }
  }

  lemma MissedInRange(seen: seq<Word>, masks: seq<Word>, n: nat)
    requires |masks| == |seen|
    requires forall j :: 0 <= j < |masks| * 8 && BitAt(masks, j) ==> j < n
    ensures Below(MissedIndices(seen, masks), n)
  {
    MissedIndicesExact(seen, masks);
    var m := MissedIndices(seen, masks);
    assert forall k :: 0 <= k < |m| ==> m[k] in m;
  }

  /** The loop reports every required index that was not seen, once and in ascending order; if the masks
      only name declared fields, the numeric fallback is never used. */
  lemma MissedNamesAreIndices(seen: seq<Word>, masks: seq<Word>, names: seq<string>, itoa: nat -> string)
    requires |masks| == |seen|
    requires forall j :: 0 <= j < |masks| * 8 && BitAt(masks, j) ==> j < |names|
    ensures var m := MissedIndices(seen, masks);
      Below(m, |names|) && MissedNames(seen, masks, names, itoa, 0) == Named(names, m)
  {
    MissedInRange(seen, masks, |names|);
    NamesOfBytes(seen, masks, names, itoa, 0);
    assert seen[0..] == seen && masks[0..] == masks;
    NoFallback(names, itoa, MissedIndices(seen, masks));
  }

  // ---------------------------------------------------------------- the bit set of a decoded object

  /** Setting one bit of a byte sets that bit of the row. */
  lemma {:induction false} BitsUpdate(ws: seq<Word>, byte: nat, b: nat)
    requires byte < |ws| && b < 8
    ensures Bits(ws[byte := OrBit(ws[byte], b)]) == Bits(ws)[byte * 8 + b := true]
  {
    var ws' := ws[byte := OrBit(ws[byte], b)];
    if byte == 0 {
      assert ws'[1..] == ws[1..];
    } else {
      assert ws'[1..] == ws[1..][byte - 1 := OrBit(ws[byte], b)];
      BitsUpdate(ws[1..], byte - 1, b);
    }
  }

  lemma {:induction false} NoBitSet(ws: seq<Word>)
    requires forall k :: 0 <= k < |ws| ==> ws[k] == ZERO
    ensures forall j :: 0 <= j < |Bits(ws)| ==> !Bits(ws)[j]
  {
    if ws == [] {
    } else {
      NoBitSet(ws[1..]);
    }
  }

  /** The bit set records, for the required fields, the keys of the object. */
  ghost predicate Marks(seen: seq<Word>, masks: seq<Word>, names: seq<string>, fs: Fields) {
    && |seen| == |masks|
    && (forall j :: 0 <= j < |masks| * 8 && BitAt(masks, j) ==>
          j < |names| && (BitAt(seen, j) <==> HasKey(fs, names[j])))
  }

  /** From position `at` on: the schema's missing fields are those with a set mask and an unset bit. */
  lemma {:induction false} MissingAt<R>(sc: Schema<R>, seen: seq<bool>, mask: seq<bool>, fs: Fields, at: nat)
    requires |seen| == |mask|
    requires forall j :: 0 <= j < |mask| && mask[j] ==>
      at + j < |sc.names| && (seen[j] <==> HasKey(fs, sc.names[at + j]))
    ensures var m := Positions(Xor(And(seen, mask), mask), at);
      Below(m, |sc.names|) && MissingFrom(sc, Positions(mask, at), fs) == Named(sc.names, m)
    decreases |mask|
  {
    if mask == [] {
    } else {
      var w := Xor(And(seen, mask), mask);
      assert w[1..] == Xor(And(seen[1..], mask[1..]), mask[1..]);
      MissingAt(sc, seen[1..], mask[1..], fs, at + 1);
      var required, missed := Positions(mask[1..], at + 1), Positions(w[1..], at + 1);
      assert ([at] + required)[1..] == required && ([at] + missed)[1..] == missed;
      var rest := MissingFrom(sc, required, fs);
      assert [] + rest == rest;
    }
  }

  /** On the bit set of an object, the loop computes the schema's missing fields. */
  lemma MissedAreMissing<R>(sc: Schema<R>, seen: seq<Word>, masks: seq<Word>, fs: Fields)
    requires Marks(seen, masks, sc.names, fs)
    ensures var m := MissedIndices(seen, masks);
      Below(m, |sc.names|) && MissingFrom(sc, SetIndices(masks), fs) == Named(sc.names, m)
  {
    assert forall j :: 0 <= j < |masks| * 8 ==> Bits(masks)[j] == BitAt(masks, j);
    MissingAt(sc, Bits(seen), Bits(masks), fs, 0);
  }
}
