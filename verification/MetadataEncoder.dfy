/**
 Sparse completed offsets as commit metadata: run-length text ("R1-3,8"),
 bitset text ("B1:17") or the overflow mark "O", whichever fits and is shortest.
 */
module MetadataEncoder {
  import opened Common
  import opened Offsets
  import opened Text
  import opened TrackerState

  // ----- run-length text

  function RunsFrom(start: int, end: int, rest: seq<int>): seq<OffsetRange>
    decreases |rest|
  {
    if rest == [] then [OffsetRange(start, end)]
    else if rest[0] == end + 1 then RunsFrom(start, rest[0], rest[1..])
    else [OffsetRange(start, end)] + RunsFrom(rest[0], rest[0], rest[1..])
  }

  /** Maximal runs of consecutive offsets in an ascending sequence. */
  function Runs(order: seq<int>): seq<OffsetRange> {
    if order == [] then [] else RunsFrom(order[0], order[0], order[1..])
  }

  function RenderRun(r: OffsetRange): string {
    if r.start == r.end then Str(r.start) else Str(r.start) + "-" + Str(r.end)
  }

  function RenderRuns(runs: seq<OffsetRange>): (parts: seq<string>)
    ensures |parts| == |runs|
  {
    if runs == [] then [] else [RenderRun(runs[0])] + RenderRuns(runs[1..])
  }

  function RleText(offsets: set<int>): string {
    Join(RenderRuns(Runs(Sorted(offsets))), ',')
  }

  method RleEncodeOffsets(offsets: set<int>) returns (text: string)
    ensures text == RleText(offsets)
  {
    if offsets == {} {
      return "";
    }
    var parts := EncodedParts(Sorted(offsets));
    text := Join(parts, ',');
  }

  method EncodedParts(order: seq<int>) returns (parts: seq<string>)
    requires order != []
    ensures parts == RenderRuns(Runs(order))
  {
    parts := [];
    var start, end := order[0], order[0];
    var i := 1;
    while i < |order|
      invariant 1 <= i <= |order|
      invariant parts + RenderRuns(RunsFrom(start, end, order[i..])) == RenderRuns(Runs(order))
    {
      assert order[i..][1..] == order[i + 1..];
      if order[i] == end + 1 {
        end := order[i];
      } else {
        var part := if start == end then Str(start) else Str(start) + "-" + Str(end);
        RenderFirst(OffsetRange(start, end), RunsFrom(order[i], order[i], order[i + 1..]));
        SeqAssoc(parts, [part], RenderRuns(RunsFrom(order[i], order[i], order[i + 1..])));
        parts := parts + [part];
        start, end := order[i], order[i];
      }
      i := i + 1;
    }
    RenderFirst(OffsetRange(start, end), []);
    parts := parts + [if start == end then Str(start) else Str(start) + "-" + Str(end)];
  }

  lemma RenderFirst(r: OffsetRange, runs: seq<OffsetRange>)
    ensures RenderRuns([r] + runs) == [RenderRun(r)] + RenderRuns(runs)
    ensures runs == [] ==> RenderRuns([r]) == [RenderRun(r)]
  {
  }

  lemma SeqAssoc<T>(a: seq<T>, b: seq<T>, c: seq<T>)
    ensures (a + b) + c == a + (b + c)
  {
  }

  /** One comma-separated part; None where the source raises ValueError. */
  function DecodePart(part: string): Option<set<int>> {
    if '-' in part then
      var fields := Split(part, '-');
      if |fields| != 2 then None
      else
        match (ParseInt(fields[0]), ParseInt(fields[1]))
        case (Some(start), Some(end)) => Some(Interval(start, end))
        case _ => None
    else
      match ParseInt(part)
      case None => None
      case Some(o) => Some({o})
  }

  function DecodeParts(parts: seq<string>): Option<set<int>> {
    if parts == [] then Some({})
    else
      match (DecodePart(parts[0]), DecodeParts(parts[1..]))
      case (Some(a), Some(b)) => Some(a + b)
      case _ => None
  }

  function RleDecode(text: string): Option<set<int>> {
    if text == "" then Some({}) else DecodeParts(Split(text, ','))
  }

  method RleDecodeOffsets(text: string) returns (offsets: Option<set<int>>)
    ensures offsets == RleDecode(text)
  {
    if text == "" {
      return Some({});
    }
    var parts := Split(text, ',');
    var found: set<int> := {};
    var i := 0;
    assert parts[0..] == parts;
    MergeNothing(DecodeParts(parts));
    while i < |parts|
      invariant 0 <= i <= |parts|
      invariant DecodeParts(parts) == Merged(found, DecodeParts(parts[i..]))
    {
      var decoded := DecodePart(parts[i]);
      assert parts[i..][1..] == parts[i + 1..];
      if decoded.None? {
        return None;
      }
      MergeAssoc(found, decoded.value, DecodeParts(parts[i + 1..]));
      found := found + decoded.value;
      i := i + 1;
    }
    return Some(found);
  }

  function Merged(found: set<int>, rest: Option<set<int>>): Option<set<int>> {
    match rest
    case None => None
    case Some(more) => Some(found + more)
  }

  lemma MergeNothing(rest: Option<set<int>>)
    ensures Merged({}, rest) == rest
  {
    if rest.Some? {
      assert {} + rest.value == rest.value;
    }
  }

  lemma MergeAssoc(a: set<int>, b: set<int>, rest: Option<set<int>>)
    ensures Merged(a + b, rest) == Merged(a, Merged(b, rest))
  {
    if rest.Some? {
      assert (a + b) + rest.value == a + (b + rest.value);
    }
  }

  // ----- run-length round trip

  function RunMembers(runs: seq<OffsetRange>): set<int> {
    if runs == [] then {}
    else Interval(runs[0].start, runs[0].end) + RunMembers(runs[1..])
  }

  ghost predicate ProperRuns(runs: seq<OffsetRange>) {
    forall i :: 0 <= i < |runs| ==> 0 <= runs[i].start <= runs[i].end
  }

  lemma {:induction false} RunsFromMembers(start: int, end: int, rest: seq<int>)
    requires 0 <= start <= end
    requires forall i :: 0 <= i < |rest| ==> rest[i] >= 0
    ensures RunMembers(RunsFrom(start, end, rest)) == Interval(start, end) + (set x | x in rest)
    ensures ProperRuns(RunsFrom(start, end, rest)) && RunsFrom(start, end, rest) != []
    decreases |rest|
  {
    var first := OffsetRange(start, end);
    if rest == [] {
      assert [first][1..] == [];
    } else {
      HeadAndTail(rest);
      if rest[0] == end + 1 {
        RunsFromMembers(start, rest[0], rest[1..]);
        assert Interval(start, end + 1) == Interval(start, end) + {rest[0]};
      } else {
        RunsFromMembers(rest[0], rest[0], rest[1..]);
        assert Interval(rest[0], rest[0]) == {rest[0]};
        FirstRunMembers(first, RunsFrom(rest[0], rest[0], rest[1..]));
      }
    }
  }

  lemma FirstRunMembers(first: OffsetRange, runs: seq<OffsetRange>)
    ensures RunMembers([first] + runs) == Interval(first.start, first.end) + RunMembers(runs)
  {
  }

  lemma HeadAndTail(rest: seq<int>)
    requires rest != []
    ensures (set x | x in rest) == {rest[0]} + (set x | x in rest[1..])
  {
  }

  lemma DecodeRun(r: OffsetRange)
    requires 0 <= r.start <= r.end
    ensures DecodePart(RenderRun(r)) == Some(Interval(r.start, r.end))
    ensures ',' !in RenderRun(r) && RenderRun(r) != []
  {
    var a, b := Str(r.start), Str(r.end);
    StrHasNo(r.start, '-'); StrHasNo(r.end, '-');
    StrHasNo(r.start, ','); StrHasNo(r.end, ',');
    ParseStr(r.start); ParseStr(r.end);
    if r.start == r.end {
      assert Interval(r.start, r.end) == {r.start};
    } else {
      assert a + "-" + b == a + ['-'] + b;
      assert (a + ['-'] + b)[|a|] == '-';
      SplitFirst(a, '-', b);
      SplitWhole(b, '-');
    }
  }

  lemma {:induction false} DecodeRuns(runs: seq<OffsetRange>)
    requires ProperRuns(runs)
    ensures DecodeParts(RenderRuns(runs)) == Some(RunMembers(runs))
    ensures forall i :: 0 <= i < |runs| ==> ',' !in RenderRuns(runs)[i] && RenderRuns(runs)[i] != []
  {
    if runs != [] {
      DecodeRun(runs[0]);
      DecodeRuns(runs[1..]);
      assert RenderRuns(runs)[1..] == RenderRuns(runs[1..]);
    }
  }

  lemma RleRoundTrip(offsets: set<int>)
    requires forall o :: o in offsets ==> o >= 0
    ensures RleDecode(RleText(offsets)) == Some(offsets)
  {
    if offsets != {} {
      var runs := Runs(Sorted(offsets));
      RunsCover(offsets);
      DecodeRuns(runs);
      JoinIsNotEmpty(RenderRuns(runs));
      SplitJoin(RenderRuns(runs), ',');
    }
  }

  lemma RunsCover(offsets: set<int>)
    requires offsets != {} && forall o :: o in offsets ==> o >= 0
    ensures RunMembers(Runs(Sorted(offsets))) == offsets
    ensures ProperRuns(Runs(Sorted(offsets))) && Runs(Sorted(offsets)) != []
  {
    var order := Sorted(offsets);
    RunsOfOrder(order, offsets);
  }

  lemma RunsOfOrder(order: seq<int>, offsets: set<int>)
    requires order != [] && (forall x :: x in order <==> x in offsets) && forall o :: o in offsets ==> o >= 0
    ensures RunMembers(Runs(order)) == offsets && ProperRuns(Runs(order)) && Runs(order) != []
  {
    assert forall i :: 0 <= i < |order| ==> order[i] in order;
    RunsFromMembers(order[0], order[0], order[1..]);
    HeadAndTail(order);
    assert (set x | x in order) == offsets;
  }

  lemma JoinIsNotEmpty(parts: seq<string>)
    requires parts != [] && parts[0] != []
    ensures Join(parts, ',') != ""
  {
  }

  // ----- bitset text

  function From(offsets: set<int>, base: int): set<int> {
    set o | o in offsets && o >= base
  }

  /** Bytes needed to reach the largest offset at or past `base`. */
  function ByteLength(offsets: set<int>, base: int): nat {
    var past := From(offsets, base);
    if past == {} then 0 else (Largest(past) - base + 8) / 8
  }

  lemma ByteLengthReaches(offsets: set<int>, base: int, o: int)
    requires o in offsets && o >= base
    ensures (o - base) / 8 < ByteLength(offsets, base)
  {
    var past := From(offsets, base);
    assert o in past;
    var reach := Largest(past) - base;
    assert o - base <= reach;
    assert (reach + 8) / 8 == reach / 8 + 1;
  }

  function BitIf(offsets: set<int>, o: int, k: nat): bv8
    requires k < 8
  {
    if o + k in offsets then Mask(k) else 0
  }

  /** The byte whose bit `k` says whether offset `o + k` is in the set. */
  function ByteAt(offsets: set<int>, o: int): bv8 {
    BitIf(offsets, o, 0) | BitIf(offsets, o, 1) | BitIf(offsets, o, 2) | BitIf(offsets, o, 3)
    | BitIf(offsets, o, 4) | BitIf(offsets, o, 5) | BitIf(offsets, o, 6) | BitIf(offsets, o, 7)
  }

  function BitBytes(offsets: set<int>, base: int, n: nat): seq<bv8> {
    seq(n, i => ByteAt(offsets, base + 8 * i))
  }

  /** The bitset text without any size limit. */
  function BitsetText(offsets: set<int>, base: int): string {
    Str(base) + ":" + Hex(BitBytes(offsets, base, ByteLength(offsets, base)))
  }

  /** The bitset text, or None when the bytes alone already exceed the limit. */
  function BitsetTextWithin(offsets: set<int>, base: int, max: int): Option<string> {
    if ByteLength(offsets, base) > 0 && ByteLength(offsets, base) > max then None
    else Some(BitsetText(offsets, base))
  }

  /** Byte `i` has bit `k` exactly when offset base + 8i + k is in the set. */
  ghost predicate Painted(bytes: seq<bv8>, base: int, offsets: set<int>) {
    forall i, k :: 0 <= i < |bytes| && 0 <= k < 8 ==> (HasBit(bytes[i], k) <==> base + 8 * i + k in offsets)
  }

  method BitsetEncodeOffsets(offsets: set<int>, base: int, max: int) returns (text: Option<string>)
    ensures text == BitsetTextWithin(offsets, base, max)
  {
    var order := Sorted(From(offsets, base));
    if order == [] {
      NoBytes(offsets, base);
      return Some(Str(base) + ":");
    }
    var byteLength := ByteLength(offsets, base);
    assert byteLength > 0 by {
      assert order[0] in order;
      ByteLengthReaches(offsets, base, order[0]);
    }
    if byteLength > max {
      return None;
    }
    forall x | x in order ensures (x - base) / 8 < byteLength {
      ByteLengthReaches(offsets, base, x);
    }
    var bytes := PaintOffsets(offsets, base, byteLength, order);
    text := Some(Str(base) + ":" + Hex(bytes));
  }

  lemma NoBytes(offsets: set<int>, base: int)
    requires From(offsets, base) == {}
    ensures BitsetText(offsets, base) == Str(base) + ":"
  {
  }

  method PaintBit(bits: array<bv8>, relative: nat)
    requires relative / 8 < bits.Length
    modifies bits
    ensures bits[..] == old(bits[..])[relative / 8 := old(bits[..])[relative / 8] | Mask(relative % 8)]
  {
    bits[relative / 8] := bits[relative / 8] | Mask(relative % 8);
  }

  method PaintOffsets(offsets: set<int>, base: int, byteLength: nat, order: seq<int>) returns (bytes: seq<bv8>)
    requires forall x :: x in order <==> x in offsets && x >= base
    requires forall x :: x in order ==> (x - base) / 8 < byteLength
    ensures bytes == BitBytes(offsets, base, byteLength)
  {
    var bits := new bv8[byteLength](_ => 0);
    BlankIsPainted(bits[..], base);
    ghost var done: set<int> := {};
    var i := 0;
    while i < |order|
      invariant 0 <= i <= |order|
      invariant Painted(bits[..], base, done)
      invariant done == set x | x in order[..i]
    {
      assert order[i] in order;
      var relative := order[i] - base;
      PaintOne(bits[..], base, done, order[i]);
      PaintBit(bits, relative);
      done := done + {order[i]};
      assert order[..i + 1] == order[..i] + [order[i]];
      OneMoreOf(order[..i], order[i]);
      i := i + 1;
    }
    assert order[..i] == order;
    PaintedIsBitBytes(bits[..], base, done, offsets);
    return bits[..];
  }

  lemma OneMoreOf(front: seq<int>, last: int)
    ensures (set x | x in front + [last]) == (set x | x in front) + {last}
  {
  }

  lemma BlankIsPainted(bytes: seq<bv8>, base: int)
    requires forall i :: 0 <= i < |bytes| ==> bytes[i] == 0
    ensures Painted(bytes, base, {})
  {
  }

  lemma PaintOne(bytes: seq<bv8>, base: int, done: set<int>, o: int)
    requires Painted(bytes, base, done)
    requires base <= o && (o - base) / 8 < |bytes|
    ensures var i := (o - base) / 8;
            Painted(bytes[i := bytes[i] | Mask((o - base) % 8)], base, done + {o})
  {
    var at, bit := (o - base) / 8, (o - base) % 8;
    var painted := bytes[at := bytes[at] | Mask(bit)];
    forall i, k | 0 <= i < |bytes| && 0 <= k < 8
      ensures HasBit(painted[i], k) <==> base + 8 * i + k in done + {o}
    {
      SetBit(bytes[at], bit, k);
      assert base + 8 * i + k == o <==> i == at && k == bit;
    }
  }

  lemma ByteAtBits(offsets: set<int>, o: int, k: nat)
    requires k < 8
    ensures HasBit(ByteAt(offsets, o), k) <==> o + k in offsets
  {
  }

  lemma SameBits(a: bv8, b: bv8)
    requires forall k :: 0 <= k < 8 ==> (HasBit(a, k) <==> HasBit(b, k))
    ensures a == b
  {
    assert HasBit(a, 0) == HasBit(b, 0) && HasBit(a, 1) == HasBit(b, 1);
    assert HasBit(a, 2) == HasBit(b, 2) && HasBit(a, 3) == HasBit(b, 3);
    assert HasBit(a, 4) == HasBit(b, 4) && HasBit(a, 5) == HasBit(b, 5);
    assert HasBit(a, 6) == HasBit(b, 6) && HasBit(a, 7) == HasBit(b, 7);
  }

  lemma PaintedIsBitBytes(bytes: seq<bv8>, base: int, done: set<int>, offsets: set<int>)
    requires Painted(bytes, base, done)
    requires forall o :: o >= base ==> (o in done <==> o in offsets)
    ensures bytes == BitBytes(offsets, base, |bytes|)
  {
    forall i | 0 <= i < |bytes| ensures bytes[i] == ByteAt(offsets, base + 8 * i) {
      forall k | 0 <= k < 8 ensures HasBit(bytes[i], k) <==> HasBit(ByteAt(offsets, base + 8 * i), k) {
        ByteAtBits(offsets, base + 8 * i, k);
      }
      SameBits(bytes[i], ByteAt(offsets, base + 8 * i));
    }
  }

  // ----- bitset decoding

  predicate Bit(bytes: seq<bv8>, relative: int)
    requires 0 <= relative < 8 * |bytes|
  {
    HasBit(bytes[relative / 8], relative % 8)
  }

  /** The offsets whose bit is set among the first `limit` bits. */
  function BitsBelow(bytes: seq<bv8>, base: int, limit: nat): set<int>
    requires limit <= 8 * |bytes|
  {
    if limit == 0 then {}
    else
      var rest := BitsBelow(bytes, base, limit - 1);
      if Bit(bytes, limit - 1) then rest + {base + limit - 1} else rest
  }

  lemma {:induction false} BitsBelowMembers(bytes: seq<bv8>, base: int, limit: nat, o: int)
    requires limit <= 8 * |bytes|
    ensures o in BitsBelow(bytes, base, limit) <==> base <= o < base + limit && Bit(bytes, o - base)
  {
    if limit > 0 {
      BitsBelowMembers(bytes, base, limit - 1, o);
    }
  }

  function BitsetDecode(text: string): set<int> {
    match Partition(text, ':')
    case None => {}
    case Some((head, tail)) =>
      match (ParseInt(head), FromHex(tail))
      case (Some(base), Some(bytes)) => BitsBelow(bytes, base, 8 * |bytes|)
      case _ => {}
  }

  method BitsetDecodeOffsets(text: string) returns (offsets: set<int>)
    ensures offsets == BitsetDecode(text)
  {
    var fields := Partition(text, ':');
    if fields.None? {
      return {};
    }
    var base := ParseInt(fields.value.0);
    var bytes := FromHex(fields.value.1);
    if base.None? || bytes.None? {
      return {};
    }
    offsets := CollectBits(bytes.value, base.value);
  }

  method CollectBits(bytes: seq<bv8>, base: int) returns (offsets: set<int>)
    ensures offsets == BitsBelow(bytes, base, 8 * |bytes|)
  {
    offsets := {};
    var i := 0;
    while i < |bytes|
      invariant 0 <= i <= |bytes|
      invariant offsets == BitsBelow(bytes, base, 8 * i)
    {
      if bytes[i] == 0 {
        BlankByteAddsNothing(bytes, base, i);
      } else {
        offsets := AddByteBits(offsets, bytes, base, i);
      }
      i := i + 1;
    }
  }

  method AddByteBits(before: set<int>, bytes: seq<bv8>, base: int, i: nat) returns (offsets: set<int>)
    requires i < |bytes| && before == BitsBelow(bytes, base, 8 * i)
    ensures offsets == BitsBelow(bytes, base, 8 * i + 8)
  {
    offsets := before;
    var k := 0;
    while k < 8
      invariant 0 <= k <= 8
      invariant offsets == BitsBelow(bytes, base, 8 * i + k)
    {
      offsets := AddBit(offsets, bytes, base, i, k);
      k := k + 1;
    }
  }

  method AddBit(before: set<int>, bytes: seq<bv8>, base: int, i: nat, k: nat) returns (offsets: set<int>)
    requires i < |bytes| && k < 8 && before == BitsBelow(bytes, base, 8 * i + k)
    ensures offsets == BitsBelow(bytes, base, 8 * i + k + 1)
  {
    NextBit(bytes, base, i, k);
    offsets := if HasBit(bytes[i], k) then before + {base + i * 8 + k} else before;
  }

  lemma NextBit(bytes: seq<bv8>, base: int, i: nat, k: nat)
    requires i < |bytes| && k < 8
    ensures BitsBelow(bytes, base, 8 * i + k + 1) ==
            BitsBelow(bytes, base, 8 * i + k) + (if HasBit(bytes[i], k) then {base + i * 8 + k} else {})
  {
    assert (8 * i + k) / 8 == i && (8 * i + k) % 8 == k;
  }

  lemma BlankByteAddsNothing(bytes: seq<bv8>, base: int, i: nat)
    requires i < |bytes| && bytes[i] == 0
    ensures BitsBelow(bytes, base, 8 * i + 8) == BitsBelow(bytes, base, 8 * i)
  {
    forall o ensures o in BitsBelow(bytes, base, 8 * i + 8) <==> o in BitsBelow(bytes, base, 8 * i) {
      BitsBelowMembers(bytes, base, 8 * i + 8, o);
      BitsBelowMembers(bytes, base, 8 * i, o);
      if base + 8 * i <= o < base + 8 * i + 8 {
        NoBits((o - base) % 8);
      }
    }
  }

  lemma BitsetRoundTrip(offsets: set<int>, base: int)
    requires base >= 0 && forall o :: o in offsets ==> o >= base
    ensures BitsetDecode(BitsetText(offsets, base)) == offsets
  {
    var n := ByteLength(offsets, base);
    var bytes := BitBytes(offsets, base, n);
    StrHasNo(base, ':');
    assert BitsetText(offsets, base) == Str(base) + [':'] + Hex(bytes);
    PartitionAt(Str(base), ':', Hex(bytes));
    ParseStr(base);
    HexRoundTrip(bytes);
    forall o | o in offsets ensures (o - base) / 8 < n {
      ByteLengthReaches(offsets, base, o);
    }
    BitsOfBitBytes(offsets, base, n);
  }

  lemma BitsOfBitBytes(offsets: set<int>, base: int, n: nat)
    requires forall o :: o in offsets ==> o >= base && (o - base) / 8 < n
    ensures BitsBelow(BitBytes(offsets, base, n), base, 8 * n) == offsets
  {
    var bytes := BitBytes(offsets, base, n);
    forall o ensures o in BitsBelow(bytes, base, 8 * n) <==> o in offsets {
      BitOfBitBytes(offsets, base, n, o);
    }
  }

  lemma BitOfBitBytes(offsets: set<int>, base: int, n: nat, o: int)
    requires o in offsets ==> o >= base && (o - base) / 8 < n
    ensures o in BitsBelow(BitBytes(offsets, base, n), base, 8 * n) <==> o in offsets
  {
    BitsBelowMembers(BitBytes(offsets, base, n), base, 8 * n, o);
    if base <= o < base + 8 * n {
      ByteAtBits(offsets, base + 8 * ((o - base) / 8), (o - base) % 8);
    }
  }

  // ----- choosing the encoding

  function Encode(offsets: set<int>, base: int, max: int): string {
    var rle := "R" + RleText(offsets);
    match BitsetTextWithin(offsets, base, max)
    case None => if |rle| > max then "O" else rle
    case Some(text) =>
      var bitset := "B" + text;
      if |rle| > max && |bitset| > max then "O"
      else if |rle| > max then bitset
      else if |bitset| > max then rle
      else if |rle| <= |bitset| then rle
      else bitset
  }

  function Decode(metadata: string): set<int> {
    if metadata == "" then {}
    else if metadata[0] == 'R' then
      match RleDecode(metadata[1..]) case None => {} case Some(offsets) => offsets
    else if metadata[0] == 'B' then BitsetDecode(metadata[1..])
    else {}
  }

  method EncodeMetadata(offsets: set<int>, base: int, max: int) returns (metadata: string)
    ensures metadata == Encode(offsets, base, max)
  {
    var rleText := RleEncodeOffsets(offsets);
    var bitsetText := BitsetEncodeOffsets(offsets, base, max);
    var rle := "R" + rleText;
    if |rle| > max && (bitsetText.None? || |"B" + bitsetText.value| > max) {
      return "O";
    }
    if |rle| > max {
      return "B" + bitsetText.value;
    }
    if bitsetText.None? || |"B" + bitsetText.value| > max || |rle| <= |"B" + bitsetText.value| {
      return rle;
    }
    return "B" + bitsetText.value;
  }

  method DecodeMetadata(metadata: string) returns (offsets: set<int>)
    ensures offsets == Decode(metadata)
  {
    if metadata == "" {
      return {};
    }
    if metadata[0] == 'R' {
      var decoded := RleDecodeOffsets(metadata[1..]);
      return if decoded.None? then {} else decoded.value;
    }
    if metadata[0] == 'B' {
      offsets := BitsetDecodeOffsets(metadata[1..]);
      return;
    }
    return {};
  }

  // ----- what the encoder promises

  /** The choice among both full texts, as if the bitset were always built. */
  ghost predicate ShortestThatFits(rle: string, bitset: string, max: int, chosen: string) {
    if |rle| > max && |bitset| > max then chosen == "O"
    else
      && (chosen == rle || chosen == bitset) && |chosen| <= max
      && (|rle| <= max ==> |chosen| <= |rle|)
      && (|bitset| <= max ==> |chosen| <= |bitset|)
      && (|rle| <= max && |rle| == |bitset| ==> chosen == rle)
  }

  /** The early byte-length exit never changes the outcome. */
  lemma EncodeIsShortest(offsets: set<int>, base: int, max: int)
    ensures ShortestThatFits("R" + RleText(offsets), "B" + BitsetText(offsets, base), max, Encode(offsets, base, max))
  {
  }

  lemma EncodeFits(offsets: set<int>, base: int, max: int)
    requires max >= 1
    ensures |Encode(offsets, base, max)| <= max
  {
  }

  /** Decoding returns the encoded set unless the text overflowed. */
  lemma MetadataRoundTrip(offsets: set<int>, base: int, max: int)
    requires base >= 0 && forall o :: o in offsets ==> o >= base
    ensures var text := Encode(offsets, base, max);
            Decode(text) == if text == "O" then {} else offsets
  {
    EncodeIsShortest(offsets, base, max);
    RlePayload(offsets);
    BitsetPayload(offsets, base);
    ChoiceDecodes("R" + RleText(offsets), "B" + BitsetText(offsets, base), max, Encode(offsets, base, max), offsets);
  }

  lemma ChoiceDecodes(rle: string, bitset: string, max: int, chosen: string, offsets: set<int>)
    requires ShortestThatFits(rle, bitset, max, chosen)
    requires rle != "O" && bitset != "O"
    requires Decode(rle) == offsets && Decode(bitset) == offsets
    ensures Decode(chosen) == if chosen == "O" then {} else offsets
  {
  }

  lemma RlePayload(offsets: set<int>)
    requires forall o :: o in offsets ==> o >= 0
    ensures Decode("R" + RleText(offsets)) == offsets
    ensures "R" + RleText(offsets) != "O"
  {
    RleRoundTrip(offsets);
    assert ("R" + RleText(offsets))[1..] == RleText(offsets);
  }

  lemma BitsetPayload(offsets: set<int>, base: int)
    requires base >= 0 && forall o :: o in offsets ==> o >= base
    ensures Decode("B" + BitsetText(offsets, base)) == offsets
    ensures "B" + BitsetText(offsets, base) != "O"
  {
    BitsetRoundTrip(offsets, base);
    assert ("B" + BitsetText(offsets, base))[1..] == BitsetText(offsets, base);
  }

  // ----- text that is no metadata

  lemma DecodePartGarbage(part: string, c: char)
    requires c in part && !Numeric(c)
    ensures DecodePart(part).None?
  {
    if '-' in part {
      var i := SplitKeeps(part, '-', c);
      ParseIntGarbage(Split(part, '-')[i], c);
    } else {
      ParseIntGarbage(part, c);
    }
  }

  lemma {:induction false} DecodePartsGarbage(parts: seq<string>, i: nat)
    requires i < |parts| && DecodePart(parts[i]).None?
    ensures DecodeParts(parts).None?
  {
    if i > 0 {
      DecodePartsGarbage(parts[1..], i - 1);
    }
  }

  /** Run-length text with a character that belongs in no number decodes to nothing, as a whole. */
  lemma RleGarbageDecodesToNothing(text: string, c: char)
    requires c in text && !Numeric(c) && c != ','
    ensures Decode("R" + text) == {}
  {
    var i := SplitKeeps(text, ',', c);
    DecodePartGarbage(Split(text, ',')[i], c);
    DecodePartsGarbage(Split(text, ','), i);
    assert ("R" + text)[1..] == text;
  }

  /** Bitset text without a separator, a readable base or readable bytes decodes to nothing. */
  lemma BitsetGarbageDecodesToNothing(head: string, tail: string)
    requires ':' !in head
    ensures Decode("B" + head) == {}
    ensures ParseInt(head).None? || FromHex(tail).None? ==> Decode("B" + head + ":" + tail) == {}
  {
    PartitionNone(head, ':');
    assert ("B" + head)[1..] == head;
    PartitionAt(head, ':', tail);
    assert ("B" + head + ":" + tail)[1..] == head + [':'] + tail;
  }

  /** Any other text, the overflow mark included, decodes to nothing. */
  lemma UnknownTextDecodesToNothing(metadata: string)
    requires metadata == "" || (metadata[0] != 'R' && metadata[0] != 'B')
    ensures Decode(metadata) == {}
  {
  }

  // ----- the texts are as short as their formats allow

  lemma {:induction false} RunsFromSeparated(start: int, end: int, rest: seq<int>)
    requires start <= end && Ascending(rest) && (rest != [] ==> end < rest[0])
    ensures Separated(RunsFrom(start, end, rest)) && RunsFrom(start, end, rest) != []
    ensures RunsFrom(start, end, rest)[0].start == start
    decreases |rest|
  {
    if rest != [] {
      if rest[0] == end + 1 {
        RunsFromSeparated(start, rest[0], rest[1..]);
      } else {
        RunsFromSeparated(rest[0], rest[0], rest[1..]);
        PrependSeparated(OffsetRange(start, end), RunsFrom(rest[0], rest[0], rest[1..]));
      }
    }
  }

  lemma PrependSeparated(r: OffsetRange, runs: seq<OffsetRange>)
    requires r.start <= r.end && Separated(runs) && (runs != [] ==> r.end + 1 < runs[0].start)
    ensures Separated([r] + runs)
  {
    var all := [r] + runs;
    forall i, j | 0 <= i < j < |all| ensures all[i].end + 1 < all[j].start {
      assert all[j] == runs[j - 1] && (i > 0 ==> all[i] == runs[i - 1]);
      assert j > 1 ==> runs[0].end + 1 < runs[j - 1].start && runs[0].start <= runs[0].end;
    }
  }

  /** The rendered runs are maximal: no two touch, so every run is one part. */
  lemma RunsAreMaximal(offsets: set<int>)
    ensures Separated(Runs(Sorted(offsets)))
  {
    var order := Sorted(offsets);
    if order != [] {
      RunsFromSeparated(order[0], order[0], order[1..]);
    }
  }

  /** A run of one is its offset alone. */
  lemma RunIsRendered(r: OffsetRange)
    requires 0 <= r.start <= r.end
    ensures '-' in RenderRun(r) <==> r.start < r.end
  {
    StrHasNo(r.start, '-');
    if r.start < r.end {
      assert RenderRun(r)[|Str(r.start)|] == '-';
    }
  }

  /** The bytes end with the largest offset: there are none to spare. */
  lemma ByteLengthIsLeast(offsets: set<int>, base: int)
    ensures ByteLength(offsets, base) == 0 || exists o :: o in offsets && o >= base && (o - base) / 8 == ByteLength(offsets, base) - 1
  {
    var past := From(offsets, base);
    if past != {} {
      var top := Largest(past);
      assert top in past;
      assert (top - base + 8) / 8 == (top - base) / 8 + 1;
    }
  }

  /** The documented run-length text of 1, 2, 3, 5, 6 and 8. */
  lemma RunTextExample()
    ensures Join(RenderRuns(Runs([1, 2, 3, 5, 6, 8])), ',') == "1-3,5-6,8"
  {
    var a, b, c := OffsetRange(1, 3), OffsetRange(5, 6), OffsetRange(8, 8);
    var order := [1, 2, 3, 5, 6, 8];
    assert order[1..] == [2, 3, 5, 6, 8] && [2, 3, 5, 6, 8][1..] == [3, 5, 6, 8] && [3, 5, 6, 8][1..] == [5, 6, 8];
    assert [5, 6, 8][1..] == [6, 8] && [6, 8][1..] == [8] && [8][1..] == [];
    assert RunsFrom(8, 8, []) == [c];
    assert RunsFrom(5, 6, [8]) == [b] + [c];
    assert RunsFrom(5, 5, [6, 8]) == [b] + [c];
    assert RunsFrom(1, 3, [5, 6, 8]) == [a] + ([b] + [c]);
    assert RunsFrom(1, 2, [3, 5, 6, 8]) == [a] + ([b] + [c]);
    assert Runs(order) == [a] + ([b] + [c]);
    RenderFirst(a, [b] + [c]);
    RenderFirst(b, [c]);
    RenderFirst(c, []);
    assert RenderRun(a) == "1-3" && RenderRun(b) == "5-6" && RenderRun(c) == "8";
    JoinExample();
  }

  lemma JoinExample()
    ensures Join(["1-3"] + (["5-6"] + ["8"]), ',') == "1-3,5-6,8"
  {
    assert (["1-3"] + (["5-6"] + ["8"]))[1..] == ["5-6"] + ["8"] && (["5-6"] + ["8"])[1..] == ["8"];
    assert Join(["5-6"] + ["8"], ',') == "5-6" + [','] + "8";
  }

  lemma ByteLengthExample(offsets: set<int>)
    requires offsets == {1, 2, 3, 5}
    ensures ByteLength(offsets, 1) == 1
  {
    ByteLengthIs(offsets, 1, 5);
  }

  lemma ByteLengthIs(offsets: set<int>, base: int, top: int)
    requires top in offsets && top >= base && forall o :: o in offsets ==> o <= top
    ensures ByteLength(offsets, base) == (top - base + 8) / 8
  {
    var past := From(offsets, base);
    assert top in past;
    assert Largest(past) in past;
  }

  lemma ByteExample(offsets: set<int>)
    requires offsets == {1, 2, 3, 5}
    ensures ByteAt(offsets, 1) == 0x17
  {
    assert BitIf(offsets, 1, 0) == 1 && BitIf(offsets, 1, 1) == 2 && BitIf(offsets, 1, 2) == 4 && BitIf(offsets, 1, 3) == 0;
    assert BitIf(offsets, 1, 4) == 16 && BitIf(offsets, 1, 5) == 0 && BitIf(offsets, 1, 6) == 0 && BitIf(offsets, 1, 7) == 0;
  }

  lemma HexExample(byte: bv8)
    requires byte == 0x17
    ensures Hex([byte]) == "17"
  {
    assert [byte][1..] == [];
    assert byte >> 4 == 1 && byte & 15 == 7;
  }

  /** The documented bitset text of 1, 2, 3 and 5 from base 1. */
  lemma BitTextExample(offsets: set<int>)
    requires offsets == {1, 2, 3, 5}
    ensures BitsetText(offsets, 1) == "1:17"
  {
    ByteLengthExample(offsets);
    ByteExample(offsets);
    HexExample(ByteAt(offsets, 1));
    assert BitBytes(offsets, 1, 1) == [ByteAt(offsets, 1)];
    assert Str(1) == "1";
  }
}
