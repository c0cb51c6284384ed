/**
 * The polyline decoder `ValhallaClient.decodePolyline`: Google's Encoded
 * Polyline Algorithm Format at six digits of precision ("polyline6").
 *
 * The input is a JavaScript string, i.e. a sequence of UTF-16 code units
 * (what `charCodeAt` returns).  The decoder's 32-bit integer operations
 * (`<<`, `|=`, `&`, `>>`, `~`) are modelled exactly, so the model is total:
 * every string decodes, including truncated ones.  Coordinates are emitted
 * as integers in millionths of a degree; the final division by 1e6 is not
 * part of the model.
 */
module Polyline {
  import opened Wrappers
  import opened Js

  /** A UTF-16 code unit. */
  type CodeUnit = c: int | 0 <= c < 0x1_0000

  /** A coordinate pair, or a pair of deltas, in millionths of a degree; latitude first. */
  datatype Point = Point(lat: int, lon: int)

  /** Every character carries its 5-bit chunk offset by 63. */
  const Offset := 63
  /** Set in every chunk of a group except the last. */
  const ContinuationBit := 0x20
  const TwoTo30 := 0x4000_0000
  const TwoTo31 := 0x8000_0000
  const TwoTo32 := 0x1_0000_0000

  // ---------------------------------------------------------------------------
  // The 32-bit operations of the decoding loop

  /** `encoded.charCodeAt(index) - 63`; past the end `charCodeAt` gives NaN, here None. */
  function ByteAt(s: seq<CodeUnit>, index: nat): Option<int> {
    if index < |s| then Some(s[index] - Offset) else None
  }

  /** `byte & 0x1f`: NaN converts to the int32 0; for every int32 the low five bits
      are its Euclidean remainder by 32, negative bytes included. */
  function Low5(b: Option<int>): (r: nat)
    ensures r < 32
  {
    match b
    case None => 0
    case Some(v) => v % 32
  }

  /** `byte >= 0x20`, which is false for NaN. */
  predicate Continues(b: Option<int>) {
    b.Some? && b.value >= ContinuationBit
  }

  /** `v << shift` as a 32-bit pattern: the count is taken mod 32 and bits above bit 31 are lost. */
  function Shl32(v: nat, shift: nat): (r: nat)
    ensures r < TwoTo32
  {
    (v * Pow2(shift % 32)) % TwoTo32
  }

  /** Bitwise OR of two non-negative integers. */
  function BitOr(a: nat, b: nat): nat
    decreases a + b
  {
    if a == 0 then b
    else if b == 0 then a
    else (if a % 2 == 1 || b % 2 == 1 then 1 else 0) + 2 * BitOr(a / 2, b / 2)
  }

  /** The int32 whose bit pattern is u. */
  function Signed32(u: nat): (r: int)
    ensures -TwoTo31 <= r < TwoTo31
    ensures (u - r) % TwoTo32 == 0
  {
    var w := u % TwoTo32;
    if w >= TwoTo31 then w - TwoTo32 else w
  }

  /** Lines 163 and 175: `(result & 1) !== 0 ? ~(result >> 1) : (result >> 1)` on the int32
      result; `>>` is an arithmetic shift, i.e. floor division by 2, and `~x` is `-x - 1`. */
  function ZigZagDecode(u: nat): int {
    var r := Signed32(u);
    if r % 2 == 1 then -(r / 2) - 1 else r / 2
  }

  // ---------------------------------------------------------------------------
  // The decoder as functions

  /** The state after one `do { … } while (byte >= 0x20)` loop: the accumulated result and the index after it. */
  datatype Group = Group(result: nat, next: nat)

  /** One group loop (lines 157-161 or 169-173), entered at the given index, shift and partial result. */
  function ReadGroup(s: seq<CodeUnit>, index: nat, shift: nat, result: nat): (g: Group)
    ensures g.next > index
    ensures index <= |s| ==> g.next <= |s| + 1
    decreases |s| - index
  {
    var b := ByteAt(s, index);
    var result' := BitOr(result, Shl32(Low5(b), shift));
    if Continues(b) then ReadGroup(s, index + 1, shift + 5, result') else Group(result', index + 1)
  }

  /** The deltas the outer loop (lines 152-179) reads from index on: a latitude group, then a longitude group. */
  function DeltasFrom(s: seq<CodeUnit>, index: nat): seq<Point>
    decreases |s| - index
  {
    if index >= |s| then []
    else
      var g1 := ReadGroup(s, index, 0, 0);
      var g2 := ReadGroup(s, g1.next, 0, 0);
      [Point(ZigZagDecode(g1.result), ZigZagDecode(g2.result))] + DeltasFrom(s, g2.next)
  }

  /** The running sums of the deltas, starting from (lat, lon). */
  function Accumulate(ds: seq<Point>, lat: int, lon: int): (ps: seq<Point>)
    ensures |ps| == |ds|
  {
    if ds == [] then []
    else
      var p := Point(lat + ds[0].lat, lon + ds[0].lon);
      [p] + Accumulate(ds[1..], p.lat, p.lon)
  }

  /** What `decodePolyline` returns, before the division by 1e6. */
  function Decode(s: seq<CodeUnit>): seq<Point> {
    Accumulate(DeltasFrom(s, 0), 0, 0)
  }

  // ---------------------------------------------------------------------------
  // The decoder as the source writes it

  /** One group loop, as at lines 153-161 (and 166-173). */
  method ReadGroupLoop(encoded: seq<CodeUnit>, start: nat) returns (result: nat, index: nat)
    ensures ReadGroup(encoded, start, 0, 0) == Group(result, index)
  {
    index := start;
    var shift := 0;
    result := 0;
    var byte := ByteAt(encoded, index);
    index := index + 1;
    result := BitOr(result, Shl32(Low5(byte), shift));
    shift := shift + 5;
    while Continues(byte)
      invariant Continues(byte) ==> index <= |encoded|
      invariant ReadGroup(encoded, start, 0, 0)
        == if Continues(byte) then ReadGroup(encoded, index, shift, result) else Group(result, index)
      decreases |encoded| - index
    {
      byte := ByteAt(encoded, index);
      index := index + 1;
      result := BitOr(result, Shl32(Low5(byte), shift));
      shift := shift + 5;
    }
  }

  /** `ValhallaClient.decodePolyline` (lines 146-182). */
  method DecodePolyline(encoded: seq<CodeUnit>) returns (coords: seq<Point>)
    ensures coords == Decode(encoded)
  {
    coords := [];
    var index := 0;
    var lat := 0;
    var lng := 0;
    while index < |encoded|
      invariant coords + Accumulate(DeltasFrom(encoded, index), lat, lng) == Decode(encoded)
      decreases |encoded| - index
    {
      ghost var lat0, lng0 := lat, lng;
      var latBits, afterLat := ReadGroupLoop(encoded, index);
      lat := lat + ZigZagDecode(latBits);
      var lngBits, afterLng := ReadGroupLoop(encoded, afterLat);
      lng := lng + ZigZagDecode(lngBits);
      DecodeStep(encoded, index, latBits, afterLat, lngBits, afterLng, lat0, lng0, lat, lng);
      AppendAssociates(coords, [Point(lat, lng)], Accumulate(DeltasFrom(encoded, afterLng), lat, lng));
      coords := coords + [Point(lat, lng)];
      index := afterLng;
    }
  }

  lemma AppendAssociates<T>(a: seq<T>, b: seq<T>, c: seq<T>)
    ensures a + (b + c) == (a + b) + c
  {
  }

  /** One pass of the outer loop: two groups read, one point accumulated. */
  lemma DecodeStep(s: seq<CodeUnit>, index: nat, u1: nat, mid: nat, u2: nat, next: nat,
                   lat0: int, lng0: int, lat: int, lng: int)
    requires index < |s| && ReadGroup(s, index, 0, 0) == Group(u1, mid) && ReadGroup(s, mid, 0, 0) == Group(u2, next)
    requires lat == lat0 + ZigZagDecode(u1) && lng == lng0 + ZigZagDecode(u2)
    ensures Accumulate(DeltasFrom(s, index), lat0, lng0) == [Point(lat, lng)] + Accumulate(DeltasFrom(s, next), lat, lng)
  {
    var d := Point(ZigZagDecode(u1), ZigZagDecode(u2));
    PairFromReads(s, index, mid, next, u1, u2, d);
    AccumulateCons(DeltasFrom(s, index), d, DeltasFrom(s, next), lat0, lng0, lat, lng);
  }

  lemma AccumulateCons(ds: seq<Point>, d: Point, rest: seq<Point>, lat0: int, lon0: int, lat: int, lon: int)
    requires ds == [d] + rest && lat == lat0 + d.lat && lon == lon0 + d.lon
    ensures Accumulate(ds, lat0, lon0) == [Point(lat, lon)] + Accumulate(rest, lat, lon)
  {
    assert ds[1..] == rest;
  }

  // ---------------------------------------------------------------------------
  // Properties of the decoder

  lemma DecodeEmpty()
    ensures Decode([]) == []
  {
  }

  lemma {:induction false} DeltasFromLength(s: seq<CodeUnit>, index: nat)
    ensures |DeltasFrom(s, index)| <= if index < |s| then (|s| - index + 1) / 2 else 0
    decreases |s| - index
  {
    if index < |s| {
      var g1 := ReadGroup(s, index, 0, 0);
      var g2 := ReadGroup(s, g1.next, 0, 0);
      DeltasFromLength(s, g2.next);
    }
  }

  /** Each pair consumes at least two characters, so at most (len + 1) / 2 pairs come out. */
  lemma DecodeLength(s: seq<CodeUnit>)
    ensures |Decode(s)| <= (|s| + 1) / 2
  {
    DeltasFromLength(s, 0);
  }

  /** Reading past the end gives NaN: the group ends there and the NaN adds nothing. */
  lemma ReadPastEnd(s: seq<CodeUnit>, index: nat, shift: nat, result: nat)
    requires index >= |s|
    ensures ReadGroup(s, index, shift, result) == Group(result, index + 1)
  {
    assert Shl32(Low5(None), shift) == 0;
  }

  /** Truncated input is not rejected: every non-empty string yields at least one pair. */
  lemma NonEmptyDecodes(s: seq<CodeUnit>)
    requires |s| > 0
    ensures |Decode(s)| >= 1
  {
  }

  /** "_" is a lone continuation character: the latitude group runs off the end, the
      longitude group reads only NaN, and the pair (0, 0) is still emitted. */
  lemma TruncatedExample()
    ensures Decode([95]) == [Point(0, 0)]
  {
    var s: seq<CodeUnit> := [95];
    ReadPastEnd(s, 1, 5, 0);
    ReadPastEnd(s, 2, 0, 0);
    assert ReadGroup(s, 0, 0, 0) == Group(0, 2);
    assert DeltasFrom(s, 3) == [];
  }

  /** The sums of the latitude and of the longitude deltas. */
  function SumLat(ds: seq<Point>): int {
    if ds == [] then 0 else ds[0].lat + SumLat(ds[1..])
  }

  function SumLon(ds: seq<Point>): int {
    if ds == [] then 0 else ds[0].lon + SumLon(ds[1..])
  }

  lemma {:induction false} AccumulateIsPrefixSum(ds: seq<Point>, lat: int, lon: int, i: nat)
    requires i < |ds|
    ensures Accumulate(ds, lat, lon)[i] == Point(lat + SumLat(ds[..i + 1]), lon + SumLon(ds[..i + 1]))
  {
    if i > 0 {
      AccumulateIsPrefixSum(ds[1..], lat + ds[0].lat, lon + ds[0].lon, i - 1);
      assert ds[..i + 1][1..] == ds[1..][..i];
    }
  }

  /** The i-th decoded pair is (sum of the first i+1 latitude deltas, sum of the first i+1 longitude deltas). */
  lemma DecodeIsPrefixSum(s: seq<CodeUnit>, i: nat)
    requires i < |Decode(s)|
    ensures var ds := DeltasFrom(s, 0);
      Decode(s)[i] == Point(SumLat(ds[..i + 1]), SumLon(ds[..i + 1]))
  {
    AccumulateIsPrefixSum(DeltasFrom(s, 0), 0, 0, i);
  }

  // ---------------------------------------------------------------------------
  // Zig-zag: the decoding equations and the signed encoding they invert

  /** For a result that fits in 31 bits, odd r gives -(r >> 1) - 1 and even r gives r >> 1. */
  lemma ZigZagDecodeSmall(r: nat)
    requires r < TwoTo31
    ensures ZigZagDecode(r) == if r % 2 == 1 then -(r / 2) - 1 else r / 2
  {
  }

  /** The encoder's side of the zig-zag map: non-negative d to 2d, negative d to -2d - 1. */
  function ZigZagEncode(d: int): (u: nat)
    ensures u % 2 == (if d < 0 then 1 else 0)
  {
    if d >= 0 then 2 * d else -2 * d - 1
  }

  lemma ZigZagRoundTrip(d: int)
    requires -TwoTo30 <= d < TwoTo30
    ensures ZigZagEncode(d) < TwoTo31
    ensures ZigZagDecode(ZigZagEncode(d)) == d
  {
  }

  // ---------------------------------------------------------------------------
  // The value of a group: its 5-bit chunks, least significant first

  /** The index just after the group that starts at index: the first character whose byte is below 0x20, or NaN. */
  function GroupEnd(s: seq<CodeUnit>, index: nat): (e: nat)
    ensures e > index
    decreases |s| - index
  {
    if Continues(ByteAt(s, index)) then GroupEnd(s, index + 1) else index + 1
  }

  /** The base-32 number whose digits, least significant first, are the chunks `(c - 63) & 0x1f`
      of the group starting at index: the sum over its k-th character of chunk * 32^k. */
  function GroupValue(s: seq<CodeUnit>, index: nat): nat
    decreases |s| - index
  {
    var b := ByteAt(s, index);
    Low5(b) + if Continues(b) then 32 * GroupValue(s, index + 1) else 0
  }

  /** 32^k. */
  function Pow32(k: nat): (r: nat)
    ensures r >= 1
  {
    if k == 0 then 1 else 32 * Pow32(k - 1)
  }

  lemma {:induction false} Pow2FiveTimes(k: nat)
    ensures Pow2(5 * k) == Pow32(k)
  {
    if k > 0 {
      Pow2FiveTimes(k - 1);
      Pow2Add(5 * (k - 1), 5);
      assert 5 * k == 5 * (k - 1) + 5;
    }
  }

  lemma {:induction false} BitOrZero(b: nat)
    ensures BitOr(0, b) == b && BitOr(b, 0) == b
  {
  }

  /** OR with a multiple of 2^n adds, when the other operand is below 2^n. */
  lemma {:induction false} BitOrDisjoint(a: nat, q: nat, n: nat)
    requires a < Pow2(n)
    ensures BitOr(a, q * Pow2(n)) == a + q * Pow2(n)
  {
    var c := q * Pow2(n);
    if a == 0 || q == 0 {
      BitOrZero(c);
      BitOrZero(a);
    } else {
      var p := Pow2(n - 1);
      var h := q * p;
      assert Pow2(n) == 2 * p;
      DoubleMultiple(q, p);
      BitOrDisjoint(a / 2, q, n - 1);
      BitOrEvenStep(a, h);
    }
  }

  /** OR with an even number: the low bit comes from a, the rest from the halves. */
  lemma BitOrEvenStep(a: nat, h: nat)
    requires a > 0 && h > 0
    ensures BitOr(a, 2 * h) == a % 2 + 2 * BitOr(a / 2, h)
  {
  }

  lemma DoubleMultiple(q: nat, p: nat)
    ensures q * (2 * p) == 2 * (q * p)
  {
  }

  lemma {:induction false} Pow32Monotone(j: nat, k: nat)
    requires j <= k
    ensures Pow32(j) <= Pow32(k)
    decreases k - j
  {
    if j < k {
      Pow32Monotone(j, k - 1);
    }
  }

  /** A chunk shifted by 5k with k <= 5 stays below bit 30, so the 32-bit shift loses nothing. */
  lemma ShiftedChunk(v: nat, k: nat)
    requires v < 32 && k <= 5
    ensures Shl32(v, 5 * k) == v * Pow32(k)
    ensures v * Pow32(k) < Pow32(k + 1)
  {
    Pow2FiveTimes(k);
    Pow32Monotone(k, 5);
    var p := Pow32(k);
    assert p <= 33554432;
    assert 5 * k % 32 == 5 * k;
    ChunkFits(v, p);
    assert Shl32(v, 5 * k) == (v * p) % TwoTo32;
    assert Pow32(k + 1) == 32 * p;
  }

  lemma ChunkFits(v: nat, p: nat)
    requires v < 32 && 1 <= p <= 33554432
    ensures v * p < TwoTo32 && (v * p) % TwoTo32 == v * p
    ensures v * p < 32 * p
  {
    assert v * p <= 31 * p;
  }

  /** One character of a group: OR-ing its chunk in at shift 5k adds chunk * 32^k. */
  lemma GroupStep(result: nat, v: nat, k: nat)
    requires v < 32 && k <= 5 && result < Pow32(k)
    ensures BitOr(result, Shl32(v, 5 * k)) == result + v * Pow32(k)
    ensures result + v * Pow32(k) < Pow32(k + 1)
  {
    ShiftedChunk(v, k);
    Pow2FiveTimes(k);
    BitOrDisjoint(result, v, 5 * k);
    ChunkBelowNext(result, v, Pow32(k));
  }

  lemma ChunkBelowNext(result: nat, v: nat, p: nat)
    requires v < 32 && result < p
    ensures result + v * p < 32 * p
  {
    assert v * p <= 31 * p;
  }

  lemma Regroup(p: nat, l: nat, g: nat)
    ensures p * (l + 32 * g) == l * p + (32 * p) * g
  {
  }

  /** A partial result below 32^k followed by the value v of the group's remaining characters. */
  function Continued(result: nat, k: nat, v: nat): nat {
    result + Pow32(k) * v
  }

  /** Reading one more character moves its chunk from the remaining value into the partial result. */
  lemma ContinueStep(result: nat, l: nat, k: nat, g: nat, v: nat, result': nat)
    requires v == l + 32 * g && result' == result + l * Pow32(k)
    ensures Continued(result', k + 1, g) == Continued(result, k, v)
  {
    assert Pow32(k + 1) == 32 * Pow32(k);
    Regroup(Pow32(k), l, g);
  }

  lemma ContinuedByOne(result: nat, k: nat, l: nat)
    ensures Continued(result, k, l) == result + l * Pow32(k)
  {
  }

  /** Continuing a group at its k-th character with a partial result below 32^k. */
  lemma {:induction false} ReadGroupValue(s: seq<CodeUnit>, index: nat, k: nat, result: nat)
    requires result < Pow32(k)
    requires GroupEnd(s, index) - index + k <= 6
    ensures ReadGroup(s, index, 5 * k, result) == Group(Continued(result, k, GroupValue(s, index)), GroupEnd(s, index))
    ensures Continued(result, k, GroupValue(s, index)) < Pow32(GroupEnd(s, index) - index + k)
    decreases |s| - index
  {
    var b := ByteAt(s, index);
    var l := Low5(b);
    var result' := BitOr(result, Shl32(l, 5 * k));
    GroupStep(result, l, k);
    if Continues(b) {
      var g := GroupValue(s, index + 1);
      assert GroupValue(s, index) == l + 32 * g;
      assert GroupEnd(s, index) == GroupEnd(s, index + 1);
      assert 5 * k + 5 == 5 * (k + 1);
      assert ReadGroup(s, index, 5 * k, result) == ReadGroup(s, index + 1, 5 * (k + 1), result');
      ReadGroupValue(s, index + 1, k + 1, result');
      ContinueStep(result, l, k, g, GroupValue(s, index), result');
      assert GroupEnd(s, index + 1) - (index + 1) + (k + 1) == GroupEnd(s, index) - index + k;
    } else {
      assert GroupValue(s, index) == l;
      assert GroupEnd(s, index) == index + 1;
      assert ReadGroup(s, index, 5 * k, result) == Group(result', index + 1);
      ContinuedByOne(result, k, l);
    }
  }

  /** For a group of at most six characters the 32-bit arithmetic is exact: the decoded
      result is the group's value, below 2^30, and the group ends at the first character
      whose byte is below 0x20 (or at the end of the string). */
  lemma GroupIsSumOfChunks(s: seq<CodeUnit>, index: nat)
    requires GroupEnd(s, index) - index <= 6
    ensures ReadGroup(s, index, 0, 0) == Group(GroupValue(s, index), GroupEnd(s, index))
    ensures GroupValue(s, index) < TwoTo30
  {
    ReadGroupValue(s, index, 0, 0);
    assert Continued(0, 0, GroupValue(s, index)) == GroupValue(s, index);
    Pow32Monotone(GroupEnd(s, index) - index, 6);
    assert Pow32(6) == TwoTo30;
  }

  // ---------------------------------------------------------------------------
  // The format's encoder (the repository has none) and the round trip

  /** The characters of one zig-zag-encoded value: 5-bit chunks, least significant first,
      0x20 set on all but the last, each offset by 63. */
  function EncodeValue(u: nat): (cs: seq<CodeUnit>)
    ensures |cs| >= 1
    decreases u
  {
    if u < 32 then [u + Offset] else [u % 32 + ContinuationBit + Offset] + EncodeValue(u / 32)
  }

  /** The characters of a sequence of deltas, latitude before longitude. */
  function EncodeDeltas(ds: seq<Point>): seq<CodeUnit> {
    if ds == [] then []
    else EncodeValue(ZigZagEncode(ds[0].lat)) + EncodeValue(ZigZagEncode(ds[0].lon)) + EncodeDeltas(ds[1..])
  }

  /** The deltas between consecutive points, the first taken from (lat, lon). */
  function Differences(ps: seq<Point>, lat: int, lon: int): (ds: seq<Point>)
    ensures |ds| == |ps|
  {
    if ps == [] then []
    else [Point(ps[0].lat - lat, ps[0].lon - lon)] + Differences(ps[1..], ps[0].lat, ps[0].lon)
  }

  /** The standard encoding of a path of points. */
  function Encode(ps: seq<Point>): seq<CodeUnit> {
    EncodeDeltas(Differences(ps, 0, 0))
  }

  /** Reading an encoded value at the k-th character of a group adds it, shifted by 5k. */
  lemma {:induction false} ReadEncodedValue(s: seq<CodeUnit>, index: nat, u: nat, k: nat, result: nat)
    requires index + |EncodeValue(u)| <= |s| && s[index..index + |EncodeValue(u)|] == EncodeValue(u)
    requires k <= 5 && result < Pow32(k) && u * Pow32(k) < TwoTo30
    ensures ReadGroup(s, index, 5 * k, result) == Group(result + u * Pow32(k), index + |EncodeValue(u)|)
    decreases u
  {
    var p := Pow32(k);
    var low, high := u % 32, u / 32;
    FirstEncodedChar(s, index, u);
    var b := ByteAt(s, index);
    GroupStep(result, low, k);
    var result' := result + low * p;
    if u < 32 {
      assert ReadGroup(s, index, 5 * k, result) == Group(result', index + 1);
    } else {
      EncodedStepArith(u, k, result);
      ReadEncodedValue(s, index + 1, high, k + 1, result');
      assert 5 * k + 5 == 5 * (k + 1);
      assert ReadGroup(s, index, 5 * k, result) == ReadGroup(s, index + 1, 5 * (k + 1), result');
    }
  }

  /** The first character of an encoded value, and where the rest of it lies. */
  lemma FirstEncodedChar(s: seq<CodeUnit>, index: nat, u: nat)
    requires index + |EncodeValue(u)| <= |s| && s[index..index + |EncodeValue(u)|] == EncodeValue(u)
    ensures u < 32 ==> ByteAt(s, index) == Some(u) && !Continues(ByteAt(s, index)) && Low5(ByteAt(s, index)) == u
    ensures u >= 32 ==> Continues(ByteAt(s, index)) && Low5(ByteAt(s, index)) == u % 32
    ensures u >= 32 ==>
      (|EncodeValue(u)| == 1 + |EncodeValue(u / 32)|
       && s[index + 1..index + 1 + |EncodeValue(u / 32)|] == EncodeValue(u / 32))
  {
    var cs := EncodeValue(u);
    assert s[index] == cs[0];
    if u >= 32 {
      var rest := EncodeValue(u / 32);
      assert cs == [cs[0]] + rest;
      assert s[index + 1..index + 1 + |rest|] == s[index..index + |cs|][1..];
    }
  }

  /** The arithmetic of one step of ReadEncodedValue past a continuation character. */
  lemma EncodedStepArith(u: nat, k: nat, result: nat)
    requires u >= 32 && k <= 5 && u * Pow32(k) < TwoTo30
    ensures k + 1 <= 5
    ensures (u / 32) * Pow32(k + 1) < TwoTo30
    ensures (result + (u % 32) * Pow32(k)) + (u / 32) * Pow32(k + 1) == result + u * Pow32(k)
  {
    var p := Pow32(k);
    var high := u / 32;
    SplitChunk(u, p);
    AtLeastOnce(32 * p, high);
    assert Pow32(k + 1) == 32 * p;
  }

  /** u * p split into its lowest chunk and the rest. */
  lemma SplitChunk(u: nat, p: nat)
    ensures u * p == (u % 32) * p + (32 * p) * (u / 32)
  {
    var low, high := u % 32, u / 32;
    assert u == low + 32 * high;
    calc {
      u * p;
      (low + 32 * high) * p;
      low * p + (32 * high) * p;
      { assert (32 * high) * p == (32 * p) * high; }
      low * p + (32 * p) * high;
    }
  }

  lemma AtLeastOnce(a: nat, n: nat)
    requires n >= 1
    ensures a * n >= a
  {
  }

  /** Deltas small enough that their zig-zag codes fit in 30 bits. */
  predicate SmallDeltas(ds: seq<Point>) {
    forall i | 0 <= i < |ds| :: -TwoTo29 <= ds[i].lat < TwoTo29 && -TwoTo29 <= ds[i].lon < TwoTo29
  }

  const TwoTo29 := 0x2000_0000

  lemma ReadEncodedDelta(s: seq<CodeUnit>, index: nat, end: nat, d: int)
    requires -TwoTo29 <= d < TwoTo29
    requires end == index + |EncodeValue(ZigZagEncode(d))| && end <= |s|
    requires s[index..end] == EncodeValue(ZigZagEncode(d))
    ensures ReadGroup(s, index, 0, 0) == Group(ZigZagEncode(d), end)
    ensures ZigZagDecode(ZigZagEncode(d)) == d
  {
    ReadEncodedValue(s, index, ZigZagEncode(d), 0, 0);
    ZigZagRoundTrip(d);
  }

  /** The index just past a latitude encoded from index on. */
  function PairMid(index: nat, p: Point): nat {
    index + |EncodeValue(ZigZagEncode(p.lat))|
  }

  /** The index just past a latitude and a longitude encoded from index on. */
  function PairEnd(index: nat, p: Point): nat {
    PairMid(index, p) + |EncodeValue(ZigZagEncode(p.lon))|
  }

  /** Where the two values of the first pair and the encoding of the remaining pairs lie. */
  lemma EncodedPairLayout(s: seq<CodeUnit>, index: nat, ds: seq<Point>)
    requires ds != [] && index <= |s| && s[index..] == EncodeDeltas(ds)
    ensures PairEnd(index, ds[0]) <= |s|
    ensures s[index..PairMid(index, ds[0])] == EncodeValue(ZigZagEncode(ds[0].lat))
    ensures s[PairMid(index, ds[0])..PairEnd(index, ds[0])] == EncodeValue(ZigZagEncode(ds[0].lon))
    ensures s[PairEnd(index, ds[0])..] == EncodeDeltas(ds[1..])
  {
    var e1 := EncodeValue(ZigZagEncode(ds[0].lat));
    var e2 := EncodeValue(ZigZagEncode(ds[0].lon));
    assert EncodeDeltas(ds) == e1 + e2 + EncodeDeltas(ds[1..]);
    ThreeParts(s, index, e1, e2, EncodeDeltas(ds[1..]));
  }

  lemma ThreeParts<T>(s: seq<T>, index: nat, a: seq<T>, b: seq<T>, c: seq<T>)
    requires index <= |s| && s[index..] == a + b + c
    ensures index + |a| + |b| <= |s|
    ensures s[index..index + |a|] == a
    ensures s[index + |a|..index + |a| + |b|] == b
    ensures s[index + |a| + |b|..] == c
  {
    var t := s[index..];
    assert s[index..index + |a|] == t[..|a|];
    assert s[index + |a|..index + |a| + |b|] == t[|a|..|a| + |b|];
    assert s[index + |a| + |b|..] == t[|a| + |b|..];
  }

  lemma SmallDeltasTail(ds: seq<Point>)
    requires ds != [] && SmallDeltas(ds)
    ensures SmallDeltas(ds[1..])
  {
    forall i | 0 <= i < |ds| - 1
      ensures -TwoTo29 <= ds[1..][i].lat < TwoTo29 && -TwoTo29 <= ds[1..][i].lon < TwoTo29
    {
      assert ds[1..][i] == ds[i + 1];
    }
  }

  /** The first pair of an encoding decodes to the first pair of deltas. */
  lemma FirstPairDecoded(s: seq<CodeUnit>, index: nat, ds: seq<Point>)
    requires ds != [] && index <= |s| && s[index..] == EncodeDeltas(ds)
    requires -TwoTo29 <= ds[0].lat < TwoTo29 && -TwoTo29 <= ds[0].lon < TwoTo29
    ensures PairEnd(index, ds[0]) <= |s| && s[PairEnd(index, ds[0])..] == EncodeDeltas(ds[1..])
    ensures DeltasFrom(s, index) == [ds[0]] + DeltasFrom(s, PairEnd(index, ds[0]))
  {
    EncodedPairLayout(s, index, ds);
    PairAt(s, index, ds[0]);
  }

  /** An encoded latitude followed by an encoded longitude at index decode to that point. */
  lemma PairAt(s: seq<CodeUnit>, index: nat, p: Point)
    requires -TwoTo29 <= p.lat < TwoTo29 && -TwoTo29 <= p.lon < TwoTo29
    requires PairEnd(index, p) <= |s|
    requires s[index..PairMid(index, p)] == EncodeValue(ZigZagEncode(p.lat))
    requires s[PairMid(index, p)..PairEnd(index, p)] == EncodeValue(ZigZagEncode(p.lon))
    ensures DeltasFrom(s, index) == [p] + DeltasFrom(s, PairEnd(index, p))
  {
    ReadEncodedDelta(s, index, PairMid(index, p), p.lat);
    ReadEncodedDelta(s, PairMid(index, p), PairEnd(index, p), p.lon);
    PairFromReads(s, index, PairMid(index, p), PairEnd(index, p), ZigZagEncode(p.lat), ZigZagEncode(p.lon), p);
  }

  lemma PairFromReads(s: seq<CodeUnit>, index: nat, mid: nat, next: nat, u1: nat, u2: nat, p: Point)
    requires index < |s|
    requires ReadGroup(s, index, 0, 0) == Group(u1, mid) && ReadGroup(s, mid, 0, 0) == Group(u2, next)
    requires ZigZagDecode(u1) == p.lat && ZigZagDecode(u2) == p.lon
    ensures DeltasFrom(s, index) == [p] + DeltasFrom(s, next)
  {
  }

  lemma {:induction false} DeltasOfEncoding(s: seq<CodeUnit>, index: nat, ds: seq<Point>)
    requires index <= |s| && s[index..] == EncodeDeltas(ds)
    requires SmallDeltas(ds)
    ensures DeltasFrom(s, index) == ds
    decreases ds
  {
    if ds != [] {
      var next := PairEnd(index, ds[0]);
      FirstPairDecoded(s, index, ds);
      SmallDeltasTail(ds);
      DeltasOfEncoding(s, next, ds[1..]);
      assert ds == [ds[0]] + ds[1..];
    } else {
      assert |s| == index;
    }
  }

  lemma {:induction false} AccumulateDifferences(ps: seq<Point>, lat: int, lon: int)
    ensures Accumulate(Differences(ps, lat, lon), lat, lon) == ps
  {
    if ps != [] {
      AccumulateDifferences(ps[1..], ps[0].lat, ps[0].lon);
    }
  }

  /** Coordinates within ±2^28 millionths of a degree (about ±268 degrees): every geographic point. */
  predicate InRange(ps: seq<Point>) {
    forall i | 0 <= i < |ps| :: -TwoTo28 < ps[i].lat < TwoTo28 && -TwoTo28 < ps[i].lon < TwoTo28
  }

  const TwoTo28 := 0x1000_0000

  lemma {:induction false} DifferencesAreSmall(ps: seq<Point>, lat: int, lon: int)
    requires InRange(ps)
    requires -TwoTo28 < lat < TwoTo28 && -TwoTo28 < lon < TwoTo28
    ensures SmallDeltas(Differences(ps, lat, lon))
  {
    if ps != [] {
      assert InRange(ps[1..]) by {
        forall i | 0 <= i < |ps[1..]| ensures -TwoTo28 < ps[1..][i].lat < TwoTo28 && -TwoTo28 < ps[1..][i].lon < TwoTo28 {
          assert ps[1..][i] == ps[i + 1];
        }
      }
      DifferencesAreSmall(ps[1..], ps[0].lat, ps[0].lon);
      var ds := Differences(ps, lat, lon);
      forall i | 0 <= i < |ds| ensures -TwoTo29 <= ds[i].lat < TwoTo29 && -TwoTo29 <= ds[i].lon < TwoTo29 {
        if i > 0 {
          assert ds[i] == Differences(ps[1..], ps[0].lat, ps[0].lon)[i - 1];
        }
      }
    }
  }

  /** Decoding the format's encoding of a path gives the path back. */
  lemma RoundTrip(ps: seq<Point>)
    requires InRange(ps)
    ensures Decode(Encode(ps)) == ps
  {
    var ds := Differences(ps, 0, 0);
    DifferencesAreSmall(ps, 0, 0);
    DeltasOfEncoding(Encode(ps), 0, ds);
    AccumulateDifferences(ps, 0, 0);
  }
}
