/** The Exif reader: a byte parser that must survive any input. */
module ExifReader {
  import opened Common

  type Byte = b: int | 0 <= b < 256 witness 0

  type Bytes = seq<Byte>

  datatype Order = LittleEndian | BigEndian

  const EXIF: Bytes := [0x45, 0x78, 0x69, 0x66, 0, 0]
  const ORIENTATION_TAG := 0x112

  function Number16(order: Order, s: Bytes): (n: nat)
    requires |s| == 2
    ensures n < 0x1_0000
  {
    if order == BigEndian then (s[0] as int) * 256 + s[1] as int else (s[1] as int) * 256 + s[0] as int
  }

  function Number32(order: Order, s: Bytes): (n: nat)
    requires |s| == 4
    ensures n < 0x1_0000_0000
  {
    if order == BigEndian then Number16(order, s[..2]) * 0x1_0000 + Number16(order, s[2..])
    else Number16(order, s[2..]) * 0x1_0000 + Number16(order, s[..2])
  }

  // ----- what the bytes say

  predicate IsOrientationEntry(order: Order, entry: Bytes)
    requires |entry| == 12
  {
    Number16(order, entry[..2]) == ORIENTATION_TAG && Number16(order, entry[2..4]) == 3
        && Number32(order, entry[4..8]) == 1
  }

  function EntryValue(order: Order, entry: Bytes): (v: nat)
    requires |entry| == 12
    ensures 1 <= v <= 8
  {
    var v := Number16(order, entry[8..10]);
    if 1 <= v <= 8 then v else 1
  }

  /** The directory entries: the first orientation entry decides, a cut-off directory means
      upright, and a directory without one leaves the question open. */
  function EntriesSay(order: Order, rest: Bytes, count: nat): (r: Option<nat>)
    ensures r.Some? ==> 1 <= r.value <= 8
  {
    if count == 0 then None
    else if |rest| < 12 then Some(1)
    else if IsOrientationEntry(order, rest[..12]) then Some(EntryValue(order, rest[..12]))
    else EntriesSay(order, rest[12..], count - 1)
  }

  const MOTOROLA: Bytes := [0x4d, 0x4d]
  const INTEL: Bytes := [0x49, 0x49]

  function ByteOrder(mark: Bytes): Option<Order> {
    if mark == MOTOROLA then Some(BigEndian) else if mark == INTEL then Some(LittleEndian) else None
  }

  predicate IsExif(marker: Byte, body: Bytes) {
    marker == 0xe1 && |body| >= 14 && body[..6] == EXIF
  }

  function TiffSays(tiff: Bytes): (r: Option<nat>)
    requires |tiff| >= 8
    ensures r.Some? ==> 1 <= r.value <= 8
  {
    var order := ByteOrder(tiff[..2]);
    if order.None? || Number16(order.value, tiff[2..4]) != 42 then Some(1)
    else
      var offset := Number32(order.value, tiff[4..8]);
      if offset < 8 || offset + 2 > |tiff| then Some(1)
      else EntriesSay(order.value, tiff[offset + 2..], Number16(order.value, tiff[offset..offset + 2]))
  }

  /** The segments from a marker on: the first Exif segment that decides does. */
  function SegmentsSay(rest: Bytes): (v: nat)
    ensures 1 <= v <= 8
    decreases |rest|
  {
    if |rest| < 4 || rest[0] != 0xff || rest[1] == 0xda || rest[1] == 0xd9 then 1
    else
      var length := Number16(BigEndian, rest[2..4]);
      if length < 2 || 2 + length > |rest| then 1
      else
        var body, next := rest[4..2 + length], rest[length + 2..];
        if IsExif(rest[1], body) && TiffSays(body[6..]).Some? then TiffSays(body[6..]).value else SegmentsSay(next)
  }

  function JpegSays(data: Bytes): (v: nat)
    ensures 1 <= v <= 8
  {
    if |data| < 4 || data[0] != 0xff || data[1] != 0xd8 then 1 else SegmentsSay(data[2..])
  }

  // ----- the parser

  /** The entry loop of jpegOrientation. */
  method ScanEntries(order: Order, tiff: Bytes, offset: nat) returns (r: Option<nat>)
    requires offset + 2 <= |tiff|
    ensures r == EntriesSay(order, tiff[offset + 2..], Number16(order, tiff[offset..offset + 2]))
  {
    var count := Number16(order, tiff[offset..offset + 2]);
    ghost var whole := EntriesSay(order, tiff[offset + 2..], count);
    for i := 0 to count
      invariant i > 0 ==> offset + 2 + i * 12 <= |tiff|
      invariant offset + 2 + i * 12 <= |tiff| && whole == EntriesSay(order, tiff[offset + 2 + i * 12..], count - i)
    {
      var p := offset + 2 + i * 12;
      if p + 12 > |tiff| {
        return Some(1);
      }
      assert tiff[p..][..12] == tiff[p..p + 12];
      assert tiff[p..][12..] == tiff[p + 12..];
      var entry := tiff[p..p + 12];
      if Number16(order, entry[..2]) == ORIENTATION_TAG && Number16(order, entry[2..4]) == 3
          && Number32(order, entry[4..8]) == 1 {
        var v := Number16(order, entry[8..10]);
        if v >= 1 && v <= 8 {
          return Some(v);
        }
        return Some(1);
      }
    }
    return None;
  }

  /** The TIFF part of an Exif segment. */
  method ReadTiff(tiff: Bytes) returns (r: Option<nat>)
    requires |tiff| >= 8
    ensures r == TiffSays(tiff)
  {
    hide EntriesSay;
    var order := LittleEndian;
    if tiff[..2] == MOTOROLA {
      order := BigEndian;
    } else if tiff[..2] != INTEL {
      return Some(1);
    }
    if Number16(order, tiff[2..4]) != 42 {
      return Some(1);
    }
    var offset := Number32(order, tiff[4..8]);
    if offset < 8 || offset + 2 > |tiff| {
      return Some(1);
    }
    r := ScanEntries(order, tiff, offset);
  }

  /** One segment of the data, from a marker on. */
  lemma SegmentAt(data: Bytes, pos: nat)
    requires pos <= |data|
    ensures SegmentsSay(data[pos..]) ==
            if |data| < pos + 4 || data[pos] != 0xff || data[pos + 1] == 0xda || data[pos + 1] == 0xd9 then 1
            else
              var length := Number16(BigEndian, data[pos + 2..pos + 4]);
              if length < 2 || pos + 2 + length > |data| then 1
              else
                var body := data[pos + 4..pos + 2 + length];
                if IsExif(data[pos + 1], body) && TiffSays(body[6..]).Some? then TiffSays(body[6..]).value
                else SegmentsSay(data[pos + length + 2..])
  {
    hide TiffSays, Number16, IsExif;
    var rest := data[pos..];
    if |rest| >= 4 {
      assert rest[2..4] == data[pos + 2..pos + 4];
      var length := Number16(BigEndian, rest[2..4]);
      if length >= 2 && 2 + length <= |rest| {
        assert rest[4..2 + length] == data[pos + 4..pos + 2 + length];
        assert rest[length + 2..] == data[pos + length + 2..];
      }
    }
  }

  /** jpegOrientation: total on every input, never outside the bytes, always 1 to 8. */
  method JpegOrientation(data: Bytes) returns (v: nat)
    ensures v == JpegSays(data)
    ensures 1 <= v <= 8
  {
    hide TiffSays, Number16, SegmentsSay;
    if |data| < 4 || data[0] != 0xff || data[1] != 0xd8 {
      return 1;
    }
    var pos := 2;
    while pos + 4 <= |data|
      invariant 2 <= pos <= |data|
      invariant SegmentsSay(data[pos..]) == JpegSays(data)
      decreases |data| - pos
    {
      SegmentAt(data, pos);
      if data[pos] != 0xff {
        return 1;
      }
      var marker := data[pos + 1];
      if marker == 0xda || marker == 0xd9 {
        return 1;
      }
      var length := Number16(BigEndian, data[pos + 2..pos + 4]);
      if length < 2 || pos + 2 + length > |data| {
        return 1;
      }
      var body := data[pos + 4..pos + 2 + length];
      pos := pos + length + 2;
      if marker != 0xe1 || |body| < 14 || body[..6] != EXIF {
        continue;
      }
      var found := ReadTiff(body[6..]);
      if found.Some? {
        return found.value;
      }
    }
    SegmentAt(data, pos);
    return 1;
  }

  // ----- a header and its reading

  function Bytes16(order: Order, n: nat): (s: Bytes)
    requires n < 0x1_0000
    ensures |s| == 2 && Number16(order, s) == n
  {
    if order == BigEndian then [n / 256, n % 256] else [n % 256, n / 256]
  }

  function Bytes32(order: Order, n: nat): (s: Bytes)
    requires n < 0x1_0000
    ensures |s| == 4 && Number32(order, s) == n
  {
    var zero, low := Bytes16(order, 0), Bytes16(order, n);
    if order == BigEndian then
      assert (zero + low)[..2] == zero && (zero + low)[2..] == low;
      zero + low
    else
      assert (low + zero)[..2] == low && (low + zero)[2..] == zero;
      low + zero
  }

  function OrderMark(order: Order): (s: Bytes)
    ensures |s| == 2 && ByteOrder(s) == Some(order)
  {
    assert MOTOROLA[0] != INTEL[0];
    match order
    case BigEndian => [0x4d, 0x4d]
    case LittleEndian => [0x49, 0x49]
  }

  /** The orientation entry of an Exif directory: tag 0x0112, type SHORT, one value. */
  function OrientationEntry(order: Order, v: Byte): (e: Bytes)
    ensures |e| == 12 && IsOrientationEntry(order, e) && EntryValue(order, e) == if 1 <= v <= 8 then v else 1
  {
    var e: Bytes := match order
                    case BigEndian => [0x01, 0x12, 0, 3, 0, 0, 0, 1, 0, v, 0, 0]
                    case LittleEndian => [0x12, 0x01, 3, 0, 1, 0, 0, 0, v, 0, 0, 0];
    assert e[..2] == [e[0], e[1]] && e[2..4] == [e[2], e[3]] && e[8..10] == [e[8], e[9]];
    assert e[4..8][..2] == [e[4], e[5]] && e[4..8][2..] == [e[6], e[7]];
    e
  }

  function Concat(parts: seq<Bytes>): Bytes {
    if parts == [] then [] else parts[0] + Concat(parts[1..])
  }

  /** Directory entries that are not about orientation. */
  ghost predicate OtherEntries(order: Order, entries: seq<Bytes>) {
    forall i :: 0 <= i < |entries| ==> |entries[i]| == 12 && !IsOrientationEntry(order, entries[i])
  }

  /** A TIFF header, some bytes, a directory with an orientation entry behind others, and
      anything after it. */
  function Tiff(order: Order, gap: Bytes, others: seq<Bytes>, v: Byte, more: nat, tail: Bytes): (t: Bytes)
    requires 8 + |gap| < 0x1_0000 && |others| + 1 + more < 0x1_0000
  {
    OrderMark(order) + Bytes16(order, 42) + Bytes32(order, 8 + |gap|) + gap
    + Bytes16(order, |others| + 1 + more) + Concat(others) + OrientationEntry(order, v) + tail
  }

  function Segment(marker: Byte, body: Bytes): Bytes
    requires |body| + 2 < 0x1_0000
  {
    [0xff, marker] + Bytes16(BigEndian, |body| + 2) + body
  }

  /** A segment the parser steps over. */
  predicate Skipped(marker: Byte, body: Bytes) {
    |body| + 2 < 0x1_0000 && marker != 0xda && marker != 0xd9
    && !(IsExif(marker, body) && TiffSays(body[6..]).Some?)
  }

  lemma {:induction false} EntriesFound(order: Order, others: seq<Bytes>, v: Byte, more: nat, tail: Bytes)
    requires OtherEntries(order, others)
    ensures EntriesSay(order, Concat(others) + OrientationEntry(order, v) + tail, |others| + 1 + more) ==
            Some(if 1 <= v <= 8 then v else 1)
  {
    hide OrientationEntry, Number16, Number32, IsOrientationEntry, EntryValue;
    var rest := Concat(others) + OrientationEntry(order, v) + tail;
    if others == [] {
      assert rest[..12] == OrientationEntry(order, v);
    } else {
      assert rest[..12] == others[0];
      assert rest[12..] == Concat(others[1..]) + OrientationEntry(order, v) + tail;
      EntriesFound(order, others[1..], v, more, tail);
    }
  }

  lemma TiffRead(order: Order, gap: Bytes, others: seq<Bytes>, v: Byte, more: nat, tail: Bytes)
    requires 8 + |gap| < 0x1_0000 && |others| + 1 + more < 0x1_0000 && OtherEntries(order, others)
    ensures |Tiff(order, gap, others, v, more, tail)| >= 22
    ensures TiffSays(Tiff(order, gap, others, v, more, tail)) == Some(if 1 <= v <= 8 then v else 1)
  {
    hide EntriesSay, Number16, Number32, OrientationEntry, Concat, Bytes16, Bytes32, OrderMark, ByteOrder, OtherEntries;
    var t := Tiff(order, gap, others, v, more, tail);
    var count := Bytes16(order, |others| + 1 + more);
    var entries := Concat(others) + OrientationEntry(order, v) + tail;
    var head := OrderMark(order) + Bytes16(order, 42) + Bytes32(order, 8 + |gap|);
    var n := 8 + |gap|;
    assert t == head + gap + count + entries;
    assert t[..2] == OrderMark(order) && t[2..4] == Bytes16(order, 42) && t[4..8] == Bytes32(order, n);
    assert t[n..n + 2] == count && t[n + 2..] == entries;
    EntriesFound(order, others, v, more, tail);
  }

  /** One segment at the front. */
  lemma SegmentRead(marker: Byte, body: Bytes, rest: Bytes)
    requires |body| + 2 < 0x1_0000 && marker != 0xda && marker != 0xd9
    ensures SegmentsSay(Segment(marker, body) + rest) ==
            if IsExif(marker, body) && TiffSays(body[6..]).Some? then TiffSays(body[6..]).value else SegmentsSay(rest)
  {
    hide Number16, TiffSays;
    var whole := Segment(marker, body) + rest;
    assert whole[2..4] == Bytes16(BigEndian, |body| + 2);
    assert whole[4..|body| + 4] == body && whole[|body| + 4..] == rest;
  }

  predicate AllSkipped(parts: seq<(Byte, Bytes)>) {
    forall part :: part in parts ==> Skipped(part.0, part.1)
  }

  function Segments(parts: seq<(Byte, Bytes)>): Bytes
    requires AllSkipped(parts)
  {
    if parts == [] then [] else Segment(parts[0].0, parts[0].1) + Segments(parts[1..])
  }

  lemma {:induction false} SegmentsSkipped(parts: seq<(Byte, Bytes)>, rest: Bytes)
    requires AllSkipped(parts)
    ensures SegmentsSay(Segments(parts) + rest) == SegmentsSay(rest)
  {
    if parts == [] {
      assert Segments(parts) + rest == rest;
    } else {
      assert Segments(parts) + rest == Segment(parts[0].0, parts[0].1) + (Segments(parts[1..]) + rest);
      SegmentRead(parts[0].0, parts[0].1, Segments(parts[1..]) + rest);
      SegmentsSkipped(parts[1..], rest);
    }
  }

  /** Round trip: whatever the byte order, the segments before it, the entries before it and
      the bytes after it, the orientation written into a JPEG header is the one read, and a
      value the standard does not know is read as upright. */
  lemma OrientationRoundTrip(order: Order, before: seq<(Byte, Bytes)>, gap: Bytes, others: seq<Bytes>, v: Byte,
                             more: nat, tail: Bytes, rest: Bytes)
    requires AllSkipped(before)
    requires 8 + |gap| < 0x1_0000 && |others| + 1 + more < 0x1_0000 && OtherEntries(order, others)
    requires |Tiff(order, gap, others, v, more, tail)| + 8 < 0x1_0000
    ensures var name: Bytes := [0x45, 0x78, 0x69, 0x66, 0, 0];
            JpegSays([0xff, 0xd8] + Segments(before)
                     + Segment(0xe1, name + Tiff(order, gap, others, v, more, tail)) + rest) ==
            if 1 <= v <= 8 then v else 1
  {
    hide Tiff, TiffSays, SegmentsSay;
    var body := EXIF + Tiff(order, gap, others, v, more, tail);
    var exif := Segment(0xe1, body) + rest;
    var data := [0xff, 0xd8] + Segments(before) + Segment(0xe1, body) + rest;
    assert data[2..] == Segments(before) + exif;
    SegmentsSkipped(before, exif);
    TiffRead(order, gap, others, v, more, tail);
    assert body[..6] == EXIF && body[6..] == Tiff(order, gap, others, v, more, tail);
    SegmentRead(0xe1, body, rest);
  }

  /** Without an orientation the image is upright: when the data is not a JPEG, and when the
      segments that say nothing about it end in something that is no segment, in the image data
      or at the end of the image. */
  lemma NoOrientation(data: Bytes, before: seq<(Byte, Bytes)>, rest: Bytes)
    requires AllSkipped(before)
    ensures |data| < 4 || data[0] != 0xff || data[1] != 0xd8 ==> JpegSays(data) == 1
    ensures |rest| < 4 || rest[0] != 0xff || rest[1] == 0xda || rest[1] == 0xd9 ==>
              JpegSays([0xff, 0xd8] + Segments(before) + rest) == 1
  {
    var whole := [0xff, 0xd8] + Segments(before) + rest;
    assert whole[2..] == Segments(before) + rest;
    SegmentsSkipped(before, rest);
  }
}
