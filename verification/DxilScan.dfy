/**
 The container scanner (`proxy/dxil_scan.cpp`): does a DXIL container declare the
 raytracing tier 1.1 feature? Containers are DXBC-shaped: a 32 byte header with the
 part count at its end, a table of part offsets, and parts of a 4 byte tag, a size
 and the data. Numbers are little-endian.
 */
module DxilScan {
  type Byte = n: nat | n < 256
  type Bytes = seq<Byte>

  const HEADER: nat := 32
  const MAGIC: nat := 0x4342_5844
  const LIMIT32: nat := 0x1_0000_0000
  const TAG_SFI0: Bytes := [0x53, 0x46, 0x49, 0x30]
  const RAYTRACING_TIER11: nat := 0x10_0000

  function Decode(b: Bytes): nat {
    if b == [] then 0 else b[0] + 256 * Decode(b[1..])
  }

  function Encode(n: nat, width: nat): (b: Bytes)
    ensures |b| == width
  {
    if width == 0 then [] else [n % 256] + Encode(n / 256, width - 1)
  }

  function Pow256(width: nat): nat {
    if width == 0 then 1 else 256 * Pow256(width - 1)
  }

  lemma {:induction false} DecodeEncode(n: nat, width: nat)
    requires n < Pow256(width)
    ensures Decode(Encode(n, width)) == n
  {
    if width > 0 {
      DecodeEncode(n / 256, width - 1);
      assert Encode(n, width)[1..] == Encode(n / 256, width - 1);
    }
  }

  lemma Decode32(n: nat)
    requires n < LIMIT32
    ensures Decode(Encode(n, 4)) == n
  {
    assert Pow256(4) == 256 * Pow256(3) == 256 * 256 * Pow256(2) == 256 * 256 * 256 * Pow256(1);
    DecodeEncode(n, 4);
  }

  // --- the scanner ------------------------------------------------------------------

  function Load32(data: Bytes, at: nat): nat
    requires at + 4 <= |data|
  {
    Decode(data[at..at + 4])
  }

  /** Does a part the scanner looks at start here, and is it the feature part? */
  predicate IsFeaturePart(data: Bytes, off: nat) {
    off + 8 <= |data| && data[off..off + 4] == TAG_SFI0
  }

  /** What the feature part says, 0 if it is cut short. */
  function FlagsAt(data: Bytes, off: nat): nat
    requires off + 8 <= |data|
  {
    if Load32(data, off + 4) < 8 || off + 16 > |data| then 0 else Decode(data[off + 8..off + 16])
  }

  /** From part `i` on: the flags of the first feature part the table points at. */
  function ScanFrom(data: Bytes, i: nat, n: nat): nat
    requires HEADER + 4 * n <= |data|
    decreases n - i
  {
    if i >= n then 0
    else
      var off := Load32(data, HEADER + 4 * i);
      if IsFeaturePart(data, off) then FlagsAt(data, off) else ScanFrom(data, i + 1, n)
  }

  predicate HasTable(data: Bytes) {
    && |data| >= HEADER
    && Load32(data, 0) == MAGIC
    && Load32(data, 24) <= |data|
    && HEADER + 4 * Load32(data, 28) <= |data|
  }

  function Scan(data: Bytes): nat {
    if HasTable(data) then ScanFrom(data, 0, Load32(data, 28)) else 0
  }

  /** `Dxr11ContainerFeatureFlags`: on any bytes it ends without reading outside them. */
  method FeatureFlags(data: Bytes) returns (flags: nat)
    ensures flags == Scan(data)
  {
    if |data| < HEADER { return 0; }
    if Load32(data, 0) != MAGIC { return 0; }
    if Load32(data, 24) > |data| { return 0; }
    hide Decode;
    var parts := Load32(data, 28);
    if parts > (|data| - HEADER) / 4 { return 0; }
    for i := 0 to parts
      invariant Scan(data) == ScanFrom(data, i, parts)
    {
      var off := Load32(data, HEADER + i * 4);
      if off > |data| || |data| - off < 8 { continue; }
      var partSize := Load32(data, off + 4);
      if data[off..off + 4] != TAG_SFI0 { continue; }
      if partSize < 8 || |data| - off - 8 < 8 { return 0; }
      return Decode(data[off + 8..off + 16]);
    }
    flags := 0;
  }

  /** `Dxr11ContainerUsesRayQuery`: the tier 1.1 bit. */
  method UsesRayQuery(data: Bytes) returns (uses: bool)
    ensures uses <==> (Scan(data) / RAYTRACING_TIER11) % 2 == 1
  {
    var flags := FeatureFlags(data);
    uses := (flags / RAYTRACING_TIER11) % 2 != 0;
  }

  /** The scanner answers with the flags of a part the table points at, or 0. */
  lemma {:induction false} ScanFindsFirst(data: Bytes, i: nat, n: nat, k: nat)
    requires HEADER + 4 * n <= |data| && i <= k < n
    requires IsFeaturePart(data, Load32(data, HEADER + 4 * k))
    requires forall j :: i <= j < k ==> !IsFeaturePart(data, Load32(data, HEADER + 4 * j))
    ensures ScanFrom(data, i, n) == FlagsAt(data, Load32(data, HEADER + 4 * k))
    decreases k - i
  {
    if i < k { ScanFindsFirst(data, i + 1, n, k); }
  }

  lemma {:induction false} ScanFindsNone(data: Bytes, i: nat, n: nat)
    requires HEADER + 4 * n <= |data| && i <= n
    requires forall j :: i <= j < n ==> !IsFeaturePart(data, Load32(data, HEADER + 4 * j))
    ensures ScanFrom(data, i, n) == 0
    decreases n - i
  {
    if i < n { ScanFindsNone(data, i + 1, n); }
  }

  // --- the builder ---------------------------------------------------------------------

  datatype Part = Part(tag: Bytes, data: Bytes)
  {
    predicate Valid() { |tag| == 4 }

    function Serialized(): Bytes { tag + Encode(|data|, 4) + data }
  }

  function Bodies(parts: seq<Part>): Bytes {
    if parts == [] then [] else Bodies(parts[..|parts| - 1]) + parts[|parts| - 1].Serialized()
  }

  /** Where part `k` starts. */
  function Offset(parts: seq<Part>, k: nat): nat
    requires k <= |parts|
  {
    HEADER + 4 * |parts| + |Bodies(parts[..k])|
  }

  function Table(parts: seq<Part>, k: nat): (b: Bytes)
    requires k <= |parts|
    ensures |b| == 4 * k
  {
    if k == 0 then [] else Table(parts, k - 1) + Encode(Offset(parts, k - 1), 4)
  }

  function Size(parts: seq<Part>): nat { Offset(parts, |parts|) }

  function Header(digest: Bytes, version: Bytes, parts: seq<Part>): Bytes {
    Encode(MAGIC, 4) + digest + version + Encode(Size(parts), 4) + Encode(|parts|, 4)
  }

  function Container(digest: Bytes, version: Bytes, parts: seq<Part>): Bytes {
    Header(digest, version, parts) + Table(parts, |parts|) + Bodies(parts)
  }

  /** What the container means: the flags of its first SFI0 part. */
  function Flags(parts: seq<Part>): nat {
    if parts == [] then 0
    else if parts[0].tag == TAG_SFI0 then
      if |parts[0].data| < 8 then 0 else Decode(parts[0].data[..8])
    else Flags(parts[1..])
  }

  // --- what lies where -------------------------------------------------------------------

  /** The piece lies in the data at the offset. */
  predicate At(data: Bytes, off: nat, piece: Bytes) {
    off + |piece| <= |data| && data[off..off + |piece|] == piece
  }

  /** A piece of a piece. */
  lemma AtWithin(data: Bytes, off: nat, whole: Bytes, at: nat, piece: Bytes)
    requires At(data, off, whole) && At(whole, at, piece)
    ensures At(data, off + at, piece)
  {
    forall k | 0 <= k < |piece| ensures data[off + at + k] == piece[k] {
      assert piece[k] == whole[at..at + |piece|][k];
      assert whole[at + k] == data[off..off + |whole|][at + k];
    }
  }

  lemma AtJoined(a: Bytes, piece: Bytes, b: Bytes)
    ensures At(a + piece + b, |a|, piece)
  {}

  lemma AtStill(data: Bytes, off: nat, piece: Bytes, more: Bytes)
    requires At(data, off, piece)
    ensures At(data + more, off, piece)
  {
    assert At(data + more, 0, data);
    AtWithin(data + more, 0, data, off, piece);
  }

  /** A number that lies there reads back. */
  lemma Reads(data: Bytes, off: nat, n: nat)
    requires At(data, off, Encode(n, 4)) && n < LIMIT32
    ensures off + 4 <= |data| && Load32(data, off) == n
  {
    hide Encode, Decode;
    Decode32(n);
  }

  lemma {:induction false} TableAt(parts: seq<Part>, k: nat, i: nat)
    requires i < k <= |parts|
    ensures At(Table(parts, k), 4 * i, Encode(Offset(parts, i), 4))
  {
    hide At, Offset, Encode;
    var last := Encode(Offset(parts, k - 1), 4);
    if i < k - 1 {
      TableAt(parts, k - 1, i);
      AtStill(Table(parts, k - 1), 4 * i, Encode(Offset(parts, i), 4), last);
    } else {
      AtJoined(Table(parts, k - 1), last, []);
      assert Table(parts, k - 1) + last + [] == Table(parts, k);
    }
  }

  lemma {:induction false} BodyAt(parts: seq<Part>, i: nat)
    requires i < |parts|
    ensures At(Bodies(parts), |Bodies(parts[..i])|, parts[i].Serialized())
  {
    hide At;
    var n := |parts| - 1;
    var front, last := parts[..n], parts[n].Serialized();
    if i < n {
      BodyAt(front, i);
      assert front[..i] == parts[..i];
      AtStill(Bodies(front), |Bodies(parts[..i])|, parts[i].Serialized(), last);
    } else {
      AtJoined(Bodies(front), last, []);
      assert Bodies(front) + last + [] == Bodies(parts);
    }
  }

  lemma SizeHolds(parts: seq<Part>)
    ensures Size(parts) == HEADER + 4 * |parts| + |Bodies(parts)|
  {
    assert parts[..|parts|] == parts;
  }

  /** The three stretches of a container, and the fields of its header. */
  lemma Layout(digest: Bytes, version: Bytes, parts: seq<Part>)
    requires |digest| == 16 && |version| == 4
    ensures
      var data := Container(digest, version, parts);
      && |data| == Size(parts)
      && At(data, 0, Encode(MAGIC, 4)) && At(data, 24, Encode(Size(parts), 4))
      && At(data, 28, Encode(|parts|, 4))
      && At(data, HEADER, Table(parts, |parts|))
      && At(data, HEADER + 4 * |parts|, Bodies(parts))
  {
    hide Size, Table, Bodies, Encode;
    var m, z, n := Encode(MAGIC, 4), Encode(Size(parts), 4), Encode(|parts|, 4);
    var header, table, bodies := Header(digest, version, parts), Table(parts, |parts|), Bodies(parts);
    var data := Container(digest, version, parts);
    SizeHolds(parts);
    assert |header| == HEADER;
    assert At(header, 0, m) && At(header, 24, z) && At(header, 28, n);
    assert At(data, 0, header) && At(data, HEADER, table) && At(data, HEADER + 4 * |parts|, bodies);
    hide At, Header, Container;
    AtWithin(data, 0, header, 0, m);
    AtWithin(data, 0, header, 24, z);
    AtWithin(data, 0, header, 28, n);
  }

  lemma LayoutReads(digest: Bytes, version: Bytes, parts: seq<Part>)
    requires |digest| == 16 && |version| == 4 && Size(parts) < LIMIT32
    ensures
      var data := Container(digest, version, parts);
      |data| == Size(parts) && HasTable(data) && Load32(data, 28) == |parts|
  {
    var data := Container(digest, version, parts);
    Layout(digest, version, parts);
    SizeHolds(parts);
    hide At, Container, Size, Encode, Load32;
    Reads(data, 0, MAGIC);
    Reads(data, 24, Size(parts));
    Reads(data, 28, |parts|);
  }

  /** Where the table points, part `i` lies whole. */
  lemma PartAt(digest: Bytes, version: Bytes, parts: seq<Part>, i: nat)
    requires |digest| == 16 && |version| == 4 && Size(parts) < LIMIT32
    requires i < |parts| && parts[i].Valid()
    ensures
      var data := Container(digest, version, parts);
      var off := Offset(parts, i);
      && HEADER + 4 * i + 4 <= |data| && Load32(data, HEADER + 4 * i) == off
      && At(data, off, parts[i].tag)
      && off + 8 <= |data| && Load32(data, off + 4) == |parts[i].data|
      && At(data, off + 8, parts[i].data)
  {
    TableEntry(digest, version, parts, i);
    BodyEntry(digest, version, parts, i);
    OffsetFits(parts, i);
    hide Container, Size, Offset;
    PartFields(Container(digest, version, parts), Offset(parts, i), parts[i]);
  }

  lemma PartFields(data: Bytes, off: nat, part: Part)
    requires At(data, off, part.Serialized()) && part.Valid() && |part.data| < LIMIT32
    ensures At(data, off, part.tag)
    ensures off + 8 <= |data| && Load32(data, off + 4) == |part.data|
    ensures At(data, off + 8, part.data)
  {
    var whole, z := part.Serialized(), Encode(|part.data|, 4);
    assert At(whole, 0, part.tag) && At(whole, 4, z) && At(whole, 8, part.data);
    hide At, Encode, Load32, Part.Serialized;
    AtWithin(data, off, whole, 0, part.tag);
    AtWithin(data, off, whole, 4, z);
    AtWithin(data, off, whole, 8, part.data);
    Reads(data, off + 4, |part.data|);
  }

  lemma TableEntry(digest: Bytes, version: Bytes, parts: seq<Part>, i: nat)
    requires |digest| == 16 && |version| == 4 && Size(parts) < LIMIT32 && i < |parts|
    ensures HEADER + 4 * i + 4 <= |Container(digest, version, parts)|
    ensures Load32(Container(digest, version, parts), HEADER + 4 * i) == Offset(parts, i)
  {
    hide At, Container, Size, Encode, Load32, Table, Bodies, Offset;
    var data := Container(digest, version, parts);
    Layout(digest, version, parts);
    TableAt(parts, |parts|, i);
    OffsetFits(parts, i);
    AtWithin(data, HEADER, Table(parts, |parts|), 4 * i, Encode(Offset(parts, i), 4));
    Reads(data, HEADER + 4 * i, Offset(parts, i));
  }

  lemma BodyEntry(digest: Bytes, version: Bytes, parts: seq<Part>, i: nat)
    requires |digest| == 16 && |version| == 4 && i < |parts|
    ensures At(Container(digest, version, parts), Offset(parts, i), parts[i].Serialized())
  {
    hide At, Container, Size, Encode, Table, Bodies, Part.Serialized;
    var at, whole := |Bodies(parts[..i])|, parts[i].Serialized();
    Layout(digest, version, parts);
    BodyAt(parts, i);
    AtWithin(Container(digest, version, parts), HEADER + 4 * |parts|, Bodies(parts), at, whole);
  }

  lemma OffsetFits(parts: seq<Part>, i: nat)
    requires i < |parts|
    ensures Offset(parts, i) + |parts[i].data| <= Size(parts)
  {
    BodyAt(parts, i);
    SizeHolds(parts);
  }

  /** Part `i` is found exactly if it is the feature part, and says what it holds. */
  lemma PartScanned(digest: Bytes, version: Bytes, parts: seq<Part>, i: nat)
    requires |digest| == 16 && |version| == 4 && Size(parts) < LIMIT32
    requires i < |parts| && parts[i].Valid()
    ensures
      var data := Container(digest, version, parts);
      && HEADER + 4 * i + 4 <= |data|
      && (IsFeaturePart(data, Load32(data, HEADER + 4 * i)) <==> parts[i].tag == TAG_SFI0)
      && (parts[i].tag == TAG_SFI0 ==>
            FlagsAt(data, Load32(data, HEADER + 4 * i)) == Flags(parts[i..]))
  {
    hide Container;
    var data, off := Container(digest, version, parts), Offset(parts, i);
    PartAt(digest, version, parts, i);
    assert parts[i..][0] == parts[i];
    if |parts[i].data| >= 8 {
      assert At(parts[i].data, 0, parts[i].data[..8]);
      AtWithin(data, off + 8, parts[i].data, 0, parts[i].data[..8]);
    }
  }

  lemma {:induction false} RoundTripFrom(digest: Bytes, version: Bytes, parts: seq<Part>, i: nat)
    requires |digest| == 16 && |version| == 4 && Size(parts) < LIMIT32
    requires forall k :: 0 <= k < |parts| ==> parts[k].Valid()
    requires i <= |parts|
    ensures HEADER + 4 * |parts| <= |Container(digest, version, parts)|
    ensures ScanFrom(Container(digest, version, parts), i, |parts|) == Flags(parts[i..])
    decreases |parts| - i
  {
    hide Container, FlagsAt, IsFeaturePart;
    LayoutReads(digest, version, parts);
    if i < |parts| {
      PartScanned(digest, version, parts, i);
      RoundTripFrom(digest, version, parts, i + 1);
      assert parts[i..][1..] == parts[i + 1..] && parts[i..][0] == parts[i];
    }
  }

  /** Scanning undoes building: whatever the parts, the flags of the first SFI0 part come back. */
  lemma RoundTrip(digest: Bytes, version: Bytes, parts: seq<Part>)
    requires |digest| == 16 && |version| == 4 && Size(parts) < LIMIT32
    requires forall k :: 0 <= k < |parts| ==> parts[k].Valid()
    ensures Scan(Container(digest, version, parts)) == Flags(parts)
  {
    hide Container, FlagsAt, IsFeaturePart;
    LayoutReads(digest, version, parts);
    RoundTripFrom(digest, version, parts, 0);
    assert parts[0..] == parts;
  }
}
