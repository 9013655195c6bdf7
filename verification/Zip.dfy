// The STORE-mode ZIP writer of src/helpers/conversation-zip.ts and a reader
// that follows sections 4.3.7, 4.3.12 and 4.3.16 of PKWARE's APPNOTE, proved to
// recover exactly the entries that were written.

module Zip {
  import Crc32

  type Byte = n: nat | n < 256

  /** A file of the archive; its name is already UTF-8 encoded. */
  datatype ZipEntry = ZipEntry(name: seq<Byte>, bytes: seq<Byte>)

  // ------------------------------------------------------- little-endian

  /** `v` in two and in four bytes, its higher bits dropped. */
  function U16(v: nat): (s: seq<Byte>)
    ensures |s| == 2
  {
    [v % 256, v / 256 % 256]
  }

  function U32(v: nat): (s: seq<Byte>)
    ensures |s| == 4
  {
    [v % 256, v / 256 % 256, v / 65536 % 256, v / 16777216 % 256]
  }

  function Get16(s: seq<Byte>, at: nat): nat
    requires at + 2 <= |s|
  {
    s[at] as nat + 256 * s[at + 1] as nat
  }

  function Get32(s: seq<Byte>, at: nat): nat
    requires at + 4 <= |s|
  {
    s[at] as nat + 256 * s[at + 1] as nat + 65536 * s[at + 2] as nat + 16777216 * s[at + 3] as nat
  }

  lemma Get16OfU16(s: seq<Byte>, at: nat, v: nat)
    requires at + 2 <= |s| && s[at..at + 2] == U16(v) && v < 0x1_0000
    ensures Get16(s, at) == v
  {
    assert s[at] == s[at..at + 2][0] && s[at + 1] == s[at..at + 2][1];
  }

  lemma Digits(v: nat)
    requires v < 0x1_0000_0000
    ensures v == v % 256 + 256 * (v / 256 % 256) + 65536 * (v / 65536 % 256) + 16777216 * (v / 16777216 % 256)
  {
    var q := v / 256;
    var r := q / 256;
    assert v == 256 * q + v % 256 && q == 256 * r + q % 256;
    assert v / 65536 == r && v / 16777216 == r / 256 && r / 256 < 256;
  }

  lemma Get32OfU32(s: seq<Byte>, at: nat, v: nat)
    requires at + 4 <= |s| && s[at..at + 4] == U32(v) && v < 0x1_0000_0000
    ensures Get32(s, at) == v
  {
    Digits(v);
    var w := s[at..at + 4];
    assert s[at] == w[0] && s[at + 1] == w[1] && s[at + 2] == w[2] && s[at + 3] == w[3];
  }

  // -------------------------------------------------------------- layout

  const LOCAL_SIG := 0x04034b50
  const CENTRAL_SIG := 0x02014b50
  const EOCD_SIG := 0x06054b50
  const DOS_DATE := 0x0021
  const DOS_TIME := 0x0000
  const UTF8_FLAG := 0x0800

  /** The CRC-32 of some bytes, as a number. */
  function Crc(bytes: seq<Byte>): (crc: nat)
    ensures crc < 0x1_0000_0000
  {
    Crc32.BitSerial(AsBits(bytes)) as nat
  }

  function AsBits(bytes: seq<Byte>): seq<bv8> {
    seq(|bytes|, i requires 0 <= i < |bytes| => bytes[i] as bv8)
  }

  /** Section 4.3.7: local file header, then the name. */
  function LocalHeader(name: seq<Byte>, crc: nat, size: nat): (h: seq<Byte>)
    ensures |h| == 30 + |name|
  {
    U32(LOCAL_SIG) + U16(20) + U16(UTF8_FLAG) + U16(0) + U16(DOS_TIME) + U16(DOS_DATE)
    + U32(crc) + U32(size) + U32(size) + U16(|name|) + U16(0) + name
  }

  /** Section 4.3.12: central directory header, then the name. */
  function CentralHeader(name: seq<Byte>, crc: nat, size: nat, offset: nat): (h: seq<Byte>)
    ensures |h| == 46 + |name|
  {
    U32(CENTRAL_SIG) + U16(20) + U16(20) + U16(UTF8_FLAG) + U16(0) + U16(DOS_TIME) + U16(DOS_DATE)
    + U32(crc) + U32(size) + U32(size) + U16(|name|) + U16(0) + U16(0) + U16(0) + U16(0) + U32(0)
    + U32(offset) + name
  }

  /** Section 4.3.16: end of central directory record. */
  function EndRecord(count: nat, size: nat, start: nat): (h: seq<Byte>)
    ensures |h| == 22
  {
    U32(EOCD_SIG) + U16(0) + U16(0) + U16(count) + U16(count) + U32(size) + U32(start) + U16(0)
  }

  // ------------------------------------------------------ header writers

  /** The first |p| bytes of the buffer are written, and are `p`. */
  ghost predicate Written(a: array<Byte>, p: seq<Byte>)
    reads a
  {
    |p| <= a.Length && a[..|p|] == p
  }

  method SetUint16(a: array<Byte>, at: nat, v: nat, ghost p: seq<Byte>) returns (ghost q: seq<Byte>)
    requires Written(a, p) && at == |p| && at + 2 <= a.Length
    modifies a
    ensures q == p + U16(v) && Written(a, q)
  {
    a[at], a[at + 1] := v % 256, v / 256 % 256;
    q := p + U16(v);
  }

  method SetUint32(a: array<Byte>, at: nat, v: nat, ghost p: seq<Byte>) returns (ghost q: seq<Byte>)
    requires Written(a, p) && at == |p| && at + 4 <= a.Length
    modifies a
    ensures q == p + U32(v) && Written(a, q)
  {
    a[at], a[at + 1], a[at + 2], a[at + 3] := v % 256, v / 256 % 256, v / 65536 % 256, v / 16777216 % 256;
    q := p + U32(v);
  }

  /** Copies `s` into `a` from `at` on. */
  method Set(a: array<Byte>, s: seq<Byte>, at: nat, ghost p: seq<Byte>) returns (ghost q: seq<Byte>)
    requires Written(a, p) && at == |p| && at + |s| <= a.Length
    modifies a
    ensures q == p + s && Written(a, q)
  {
    forall i | 0 <= i < |s| { a[at + i] := s[i]; }
    q := p + s;
  }

  lemma Nothing(a: array<Byte>) returns (p: seq<Byte>)
    ensures p == [] && Written(a, p)
  {
    p := [];
  }

  lemma AllWritten(a: array<Byte>, p: seq<Byte>)
    requires Written(a, p) && |p| == a.Length
    ensures a[..] == p
  {
  }

  method WriteLocal(name: seq<Byte>, crc: nat, size: nat) returns (local: array<Byte>)
    ensures fresh(local) && local[..] == LocalHeader(name, crc, size)
  {
    hide U16, U32, Written;
    local := new Byte[30 + |name|](_ => 0);
    ghost var p := Nothing(local);
    p := SetUint32(local, 0, LOCAL_SIG, p);
    assert p == U32(LOCAL_SIG);
    p := SetUint16(local, 4, 20, p);
    p := SetUint16(local, 6, UTF8_FLAG, p);
    p := SetUint16(local, 8, 0, p);
    p := SetUint16(local, 10, DOS_TIME, p);
    p := SetUint16(local, 12, DOS_DATE, p);
    p := SetUint32(local, 14, crc, p);
    p := SetUint32(local, 18, size, p);
    p := SetUint32(local, 22, size, p);
    p := SetUint16(local, 26, |name|, p);
    p := SetUint16(local, 28, 0, p);
    p := Set(local, name, 30, p);
    AllWritten(local, p);
  }

  method WriteCentral(name: seq<Byte>, crc: nat, size: nat, offset: nat) returns (cd: array<Byte>)
    ensures fresh(cd) && cd[..] == CentralHeader(name, crc, size, offset)
  {
    hide U16, U32, Written;
    cd := new Byte[46 + |name|](_ => 0);
    ghost var p := Nothing(cd);
    p := SetUint32(cd, 0, CENTRAL_SIG, p);
    assert p == U32(CENTRAL_SIG);
    p := SetUint16(cd, 4, 20, p);
    p := SetUint16(cd, 6, 20, p);
    p := SetUint16(cd, 8, UTF8_FLAG, p);
    p := SetUint16(cd, 10, 0, p);
    p := SetUint16(cd, 12, DOS_TIME, p);
    p := SetUint16(cd, 14, DOS_DATE, p);
    p := SetUint32(cd, 16, crc, p);
    p := SetUint32(cd, 20, size, p);
    p := SetUint32(cd, 24, size, p);
    p := SetUint16(cd, 28, |name|, p);
    p := SetUint16(cd, 30, 0, p);
    p := SetUint16(cd, 32, 0, p);
    p := SetUint16(cd, 34, 0, p);
    p := SetUint16(cd, 36, 0, p);
    p := SetUint32(cd, 38, 0, p);
    p := SetUint32(cd, 42, offset, p);
    p := Set(cd, name, 46, p);
    AllWritten(cd, p);
  }

  method WriteEnd(count: nat, size: nat, start: nat) returns (eocd: array<Byte>)
    ensures fresh(eocd) && eocd[..] == EndRecord(count, size, start)
  {
    hide U16, U32, Written;
    eocd := new Byte[22](_ => 0);
    ghost var p := Nothing(eocd);
    p := SetUint32(eocd, 0, EOCD_SIG, p);
    assert p == U32(EOCD_SIG);
    p := SetUint16(eocd, 4, 0, p);
    p := SetUint16(eocd, 6, 0, p);
    p := SetUint16(eocd, 8, count, p);
    p := SetUint16(eocd, 10, count, p);
    p := SetUint32(eocd, 12, size, p);
    p := SetUint32(eocd, 16, start, p);
    p := SetUint16(eocd, 20, 0, p);
    AllWritten(eocd, p);
  }

  // ------------------------------------------------------------- archive

  /** Every local header with its data, in order. */
  function Locals(entries: seq<ZipEntry>): seq<Byte> {
    if entries == [] then [] else
      var e := entries[|entries| - 1];
      Locals(entries[..|entries| - 1]) + (LocalHeader(e.name, Crc(e.bytes), |e.bytes|) + e.bytes)
  }

  /** The central directory: each record points at its entry's local header. */
  function Centrals(entries: seq<ZipEntry>): seq<Byte> {
    if entries == [] then [] else
      var front, e := entries[..|entries| - 1], entries[|entries| - 1];
      Centrals(front) + CentralHeader(e.name, Crc(e.bytes), |e.bytes|, |Locals(front)|)
  }

  function ZipBytes(entries: seq<ZipEntry>): seq<Byte> {
    Locals(entries) + Centrals(entries) + EndRecord(|entries|, |Centrals(entries)|, |Locals(entries)|)
  }

  function Concat(chunks: seq<seq<Byte>>): seq<Byte> {
    if chunks == [] then [] else Concat(chunks[..|chunks| - 1]) + chunks[|chunks| - 1]
  }

  lemma ConcatSnoc(chunks: seq<seq<Byte>>, c: seq<Byte>)
    ensures Concat(chunks + [c]) == Concat(chunks) + c
  {
    assert (chunks + [c])[..|chunks|] == chunks;
  }

  lemma ArchiveSnoc(entries: seq<ZipEntry>, i: nat)
    requires i < |entries|
    ensures var e := entries[i];
            && Locals(entries[..i + 1]) == Locals(entries[..i]) + (LocalHeader(e.name, Crc(e.bytes), |e.bytes|) + e.bytes)
            && Centrals(entries[..i + 1]) ==
                 Centrals(entries[..i]) + CentralHeader(e.name, Crc(e.bytes), |e.bytes|, |Locals(entries[..i])|)
  {
    hide LocalHeader, CentralHeader, Crc;
    assert entries[..i + 1][..i] == entries[..i];
  }

  method BuildZip(table: array<bv32>, entries: seq<ZipEntry>) returns (out: array<Byte>)
    requires Crc32.IsCrcTable(table[..])
    ensures fresh(out) && out[..] == ZipBytes(entries)
  {
    hide LocalHeader, CentralHeader, EndRecord, Locals, Centrals, Concat, AsBits, Crc32.IsCrcTable, Crc32.BitSerial;
    var chunks: seq<seq<Byte>>, central: seq<seq<Byte>>, offset := [], [], 0;
    NoEntries();
    assert entries[..0] == [];
    for i := 0 to |entries|
      modifies {}
      invariant Concat(chunks) == Locals(entries[..i]) && Concat(central) == Centrals(entries[..i])
      invariant offset == |Locals(entries[..i])| && |central| == i
    {
      var e := entries[i];
      var crc := Crc32.Crc32(table, AsBits(e.bytes));
      var local := WriteLocal(e.name, crc as nat, |e.bytes|);
      ConcatSnoc(chunks, local[..]);
      ConcatSnoc(chunks + [local[..]], e.bytes);
      chunks := chunks + [local[..]] + [e.bytes];
      var cd := WriteCentral(e.name, crc as nat, |e.bytes|, offset);
      ConcatSnoc(central, cd[..]);
      central := central + [cd[..]];
      ArchiveSnoc(entries, i);
      offset := offset + local.Length + |e.bytes|;
    }
    assert entries[..|entries|] == entries;
    var centralStart, centralSize := offset, 0;
    assert central[..0] == [];
    for i := 0 to |central|
      modifies {}
      invariant Concat(chunks) == Locals(entries) + Concat(central[..i])
      invariant centralSize == |Concat(central[..i])|
    {
      assert central[..i + 1] == central[..i] + [central[i]];
      ConcatSnoc(central[..i], central[i]);
      ConcatSnoc(chunks, central[i]);
      chunks := chunks + [central[i]];
      centralSize := centralSize + |central[i]|;
    }
    assert central[..|central|] == central;
    var eocd := WriteEnd(|central|, centralSize, centralStart);
    ConcatSnoc(chunks, eocd[..]);
    chunks := chunks + [eocd[..]];
    out := Assemble(chunks);
  }

  lemma NoEntries()
    ensures Locals([]) == [] && Centrals([]) == [] && Concat([]) == []
  {
  }

  method Assemble(chunks: seq<seq<Byte>>) returns (out: array<Byte>)
    ensures fresh(out) && out[..] == Concat(chunks)
  {
    hide Concat, Written;
    var total := 0;
    NoEntries();
    assert chunks[..0] == [];
    for i := 0 to |chunks|
      invariant total == |Concat(chunks[..i])|
    {
      assert chunks[..i + 1] == chunks[..i] + [chunks[i]];
      ConcatSnoc(chunks[..i], chunks[i]);
      total := total + |chunks[i]|;
    }
    assert chunks[..|chunks|] == chunks;
    out := new Byte[total](_ => 0);
    ghost var written := Nothing(out);
    var p := 0;
    for i := 0 to |chunks|
      invariant fresh(out) && Written(out, written)
      invariant written == Concat(chunks[..i]) && p == |written|
    {
      assert chunks[..i + 1] == chunks[..i] + [chunks[i]];
      ConcatSnoc(chunks[..i], chunks[i]);
      ConcatGrows(chunks, i + 1);
      written := Set(out, chunks[i], p, written);
      p := p + |chunks[i]|;
    }
    AllWritten(out, written);
  }

  lemma {:induction false} ConcatGrows(chunks: seq<seq<Byte>>, i: nat)
    requires i <= |chunks|
    ensures |Concat(chunks[..i])| <= |Concat(chunks)|
    decreases |chunks| - i
  {
    if i == |chunks| {
      assert chunks[..i] == chunks;
    } else {
      assert chunks[..i + 1][..i] == chunks[..i];
      ConcatGrows(chunks, i + 1);
    }
  }

  // -------------------------------------------------------------- reader

  datatype Result<+T> = Ok(value: T) | Bad

  /** The end record: the last place whose signature and comment length fit. */
  function FindEnd(z: seq<Byte>, at: nat): (r: Result<nat>)
    requires at + 22 <= |z|
    ensures r.Ok? ==> r.value + 22 <= |z|
    decreases at
  {
    if Get32(z, at) == EOCD_SIG && at + 22 + Get16(z, at + 20) == |z| then Ok(at)
    else if at == 0 then Bad
    else FindEnd(z, at - 1)
  }

  /** The local header at `at`, checked against what the central record says of it. */
  function ReadLocal(z: seq<Byte>, at: nat, name: seq<Byte>, crc: nat, packed: nat, size: nat): Result<ZipEntry> {
    if at + 30 > |z| || Get32(z, at) != LOCAL_SIG || Get16(z, at + 8) != 0 || packed != size
       || Get32(z, at + 14) != crc || Get32(z, at + 18) != packed || Get32(z, at + 22) != size then Bad
    else
      var data := at + 30 + Get16(z, at + 26) + Get16(z, at + 28);
      if data + size > |z| || z[at + 30..at + 30 + Get16(z, at + 26)] != name
         || Crc(z[data..data + size]) != crc then Bad
      else Ok(ZipEntry(name, z[data..data + size]))
  }

  datatype Record = Record(name: seq<Byte>, crc: nat, packed: nat, size: nat, offset: nat, next: nat)

  /** The central record at `at`, which must end by `end`. */
  function ParseRecord(z: seq<Byte>, at: nat, end: nat): (r: Result<Record>)
    requires end <= |z|
    ensures r.Ok? ==> at < r.value.next <= end
  {
    if at + 46 > end || Get32(z, at) != CENTRAL_SIG || Get16(z, at + 10) != 0 then Bad
    else
      var name := at + 46 + Get16(z, at + 28);
      var next := name + Get16(z, at + 30) + Get16(z, at + 32);
      if next > end then Bad
      else Ok(Record(z[at + 46..name], Get32(z, at + 16), Get32(z, at + 20), Get32(z, at + 24), Get32(z, at + 42), next))
  }

  /** `n` central records from `at` on, which must end exactly at `end`. */
  function ReadRecords(z: seq<Byte>, at: nat, n: nat, end: nat): Result<seq<ZipEntry>>
    requires end <= |z|
    decreases n
  {
    if n == 0 then (if at == end then Ok([]) else Bad) else
      match ParseRecord(z, at, end)
      case Bad => Bad
      case Ok(r) =>
        match ReadLocal(z, r.offset, r.name, r.crc, r.packed, r.size)
        case Bad => Bad
        case Ok(e) =>
          match ReadRecords(z, r.next, n - 1, end)
          case Bad => Bad
          case Ok(rest) => Ok([e] + rest)
  }

  function ReadZip(z: seq<Byte>): Result<seq<ZipEntry>> {
    if |z| < 22 then Bad else
      match FindEnd(z, |z| - 22)
      case Bad => Bad
      case Ok(at) =>
        if Get16(z, at + 4) != 0 || Get16(z, at + 6) != 0 || Get16(z, at + 8) != Get16(z, at + 10)
           || Get32(z, at + 16) + Get32(z, at + 12) != at then Bad
        else ReadRecords(z, Get32(z, at + 16), Get16(z, at + 10), at)
  }

  // ----------------------------------------------------------- round trip

  /** Every number the format holds fits the field that holds it. */
  predicate Fits(entries: seq<ZipEntry>) {
    && FieldsFit(entries)
    && |Locals(entries)| < 0x1_0000_0000 && |Centrals(entries)| < 0x1_0000_0000
  }

  predicate FieldsFit(entries: seq<ZipEntry>) {
    && |entries| < 0x1_0000
    && forall k :: 0 <= k < |entries| ==> |entries[k].name| < 0x1_0000 && |entries[k].bytes| < 0x1_0000_0000
  }

  lemma Field16(h: seq<Byte>, p: seq<Byte>, v: nat)
    requires p + U16(v) <= h
    ensures p <= h && (v < 0x1_0000 ==> Get16(h, |p|) == v)
  {
    hide U16;
    var u := U16(v);
    assert h[..|p|] == (p + u)[..|p|] == p;
    assert h[|p|..|p| + 2] == (p + u)[|p|..] == u;
    if v < 0x1_0000 { Get16OfU16(h, |p|, v); }
  }

  lemma Field32(h: seq<Byte>, p: seq<Byte>, v: nat)
    requires p + U32(v) <= h
    ensures p <= h && (v < 0x1_0000_0000 ==> Get32(h, |p|) == v)
  {
    hide U32;
    var u := U32(v);
    assert h[..|p|] == (p + u)[..|p|] == p;
    assert h[|p|..|p| + 4] == (p + u)[|p|..] == u;
    if v < 0x1_0000_0000 { Get32OfU32(h, |p|, v); }
  }

  lemma LocalFields(h: seq<Byte>, name: seq<Byte>, crc: nat, size: nat)
    requires h == LocalHeader(name, crc, size)
    requires |name| < 0x1_0000 && crc < 0x1_0000_0000 && size < 0x1_0000_0000
    ensures Get32(h, 0) == LOCAL_SIG && Get16(h, 8) == 0 && Get32(h, 14) == crc && Get32(h, 18) == size
    ensures Get32(h, 22) == size && Get16(h, 26) == |name| && Get16(h, 28) == 0 && h[30..] == name
  {
    hide U16, U32, Get16, Get32;
    var p1 := U32(LOCAL_SIG);
    var p2 := p1 + U16(20);
    var p3 := p2 + U16(UTF8_FLAG);
    var p4 := p3 + U16(0);
    var p5 := p4 + U16(DOS_TIME);
    var p6 := p5 + U16(DOS_DATE);
    var p7 := p6 + U32(crc);
    var p8 := p7 + U32(size);
    var p9 := p8 + U32(size);
    var p10 := p9 + U16(|name|);
    var p11 := p10 + U16(0);
    assert p11 <= h && h == p11 + name;
    Field16(h, p10, 0);
    Field16(h, p9, |name|);
    Field32(h, p8, size);
    Field32(h, p7, size);
    Field32(h, p6, crc);
    Field16(h, p5, DOS_DATE);
    Field16(h, p4, DOS_TIME);
    Field16(h, p3, 0);
    Field16(h, p2, UTF8_FLAG);
    Field16(h, p1, 20);
    assert [] + p1 == p1;
    Field32(h, [], LOCAL_SIG);
  }

  lemma CentralFields(h: seq<Byte>, name: seq<Byte>, crc: nat, size: nat, offset: nat)
    requires h == CentralHeader(name, crc, size, offset)
    requires |name| < 0x1_0000 && crc < 0x1_0000_0000 && size < 0x1_0000_0000 && offset < 0x1_0000_0000
    ensures Get32(h, 0) == CENTRAL_SIG && Get16(h, 10) == 0 && Get32(h, 16) == crc && Get32(h, 20) == size
    ensures Get32(h, 24) == size && Get16(h, 28) == |name| && Get16(h, 30) == 0 && Get16(h, 32) == 0
    ensures Get32(h, 42) == offset && h[46..] == name
  {
    hide U16, U32, Get16, Get32;
    var p1 := U32(CENTRAL_SIG);
    var p2 := p1 + U16(20);
    var p3 := p2 + U16(20);
    var p4 := p3 + U16(UTF8_FLAG);
    var p5 := p4 + U16(0);
    var p6 := p5 + U16(DOS_TIME);
    var p7 := p6 + U16(DOS_DATE);
    var p8 := p7 + U32(crc);
    var p9 := p8 + U32(size);
    var p10 := p9 + U32(size);
    var p11 := p10 + U16(|name|);
    var p12 := p11 + U16(0);
    var p13 := p12 + U16(0);
    var p14 := p13 + U16(0);
    var p15 := p14 + U16(0);
    var p16 := p15 + U32(0);
    var p17 := p16 + U32(offset);
    assert p17 <= h && h == p17 + name;
    Field32(h, p16, offset);
    Field32(h, p15, 0);
    Field16(h, p14, 0);
    Field16(h, p13, 0);
    Field16(h, p12, 0);
    Field16(h, p11, 0);
    Field16(h, p10, |name|);
    Field32(h, p9, size);
    Field32(h, p8, size);
    Field32(h, p7, crc);
    Field16(h, p6, DOS_DATE);
    Field16(h, p5, DOS_TIME);
    Field16(h, p4, 0);
    Field16(h, p3, UTF8_FLAG);
    Field16(h, p2, 20);
    Field16(h, p1, 20);
    assert [] + p1 == p1;
    Field32(h, [], CENTRAL_SIG);
  }

  lemma EndFields(h: seq<Byte>, count: nat, size: nat, start: nat)
    requires h == EndRecord(count, size, start)
    requires count < 0x1_0000 && size < 0x1_0000_0000 && start < 0x1_0000_0000
    ensures Get32(h, 0) == EOCD_SIG && Get16(h, 4) == 0 && Get16(h, 6) == 0 && Get16(h, 8) == count
    ensures Get16(h, 10) == count && Get32(h, 12) == size && Get32(h, 16) == start && Get16(h, 20) == 0
  {
    hide U16, U32, Get16, Get32;
    var p1 := U32(EOCD_SIG);
    var p2 := p1 + U16(0);
    var p3 := p2 + U16(0);
    var p4 := p3 + U16(count);
    var p5 := p4 + U16(count);
    var p6 := p5 + U32(size);
    var p7 := p6 + U32(start);
    var p8 := p7 + U16(0);
    assert p8 <= h;
    Field16(h, p7, 0);
    Field32(h, p6, start);
    Field32(h, p5, size);
    Field16(h, p4, count);
    Field16(h, p3, count);
    Field16(h, p2, 0);
    Field16(h, p1, 0);
    assert [] + p1 == p1;
    Field32(h, [], EOCD_SIG);
  }

  /** `h` stands at `at` in `z`. */
  predicate At(z: seq<Byte>, at: nat, h: seq<Byte>) {
    at + |h| <= |z| && z[at..at + |h|] == h
  }

  lemma GetAt(z: seq<Byte>, at: nat, h: seq<Byte>, i: nat)
    requires At(z, at, h)
    ensures i + 2 <= |h| ==> Get16(z, at + i) == Get16(h, i)
    ensures i + 4 <= |h| ==> Get32(z, at + i) == Get32(h, i)
  {
    var w := z[at..at + |h|];
    if i + 2 <= |h| { assert z[at + i] == w[i] && z[at + i + 1] == w[i + 1]; }
    if i + 4 <= |h| { assert z[at + i + 2] == w[i + 2] && z[at + i + 3] == w[i + 3]; }
  }

  lemma AtInside(z: seq<Byte>, at: nat, h: seq<Byte>, from: nat, to: nat)
    requires At(z, at, h) && from <= to <= |h|
    ensures z[at + from..at + to] == h[from..to]
  {
    var w, s := z[at..at + |h|], z[at + from..at + to];
    assert |s| == |w[from..to]|;
    assert forall k :: 0 <= k < |s| ==> s[k] == z[at + from + k] == w[from + k] == w[from..to][k];
  }

  lemma ReadsLocal(z: seq<Byte>, at: nat, e: ZipEntry)
    requires |e.name| < 0x1_0000 && |e.bytes| < 0x1_0000_0000
    requires At(z, at, LocalHeader(e.name, Crc(e.bytes), |e.bytes|) + e.bytes)
    ensures ReadLocal(z, at, e.name, Crc(e.bytes), |e.bytes|, |e.bytes|) == Ok(e)
  {
    hide LocalHeader, Get16, Get32, Crc;
    var h := LocalHeader(e.name, Crc(e.bytes), |e.bytes|);
    var b := h + e.bytes;
    AtInside(z, at, b, 0, |h|);
    assert b[0..|h|] == h && b[|h|..|b|] == e.bytes;
    AtInside(z, at, b, |h|, |b|);
    AtInside(z, at, h, 30, |h|);
    LocalFields(h, e.name, Crc(e.bytes), |e.bytes|);
    GetAt(z, at, h, 0);
    GetAt(z, at, h, 8);
    GetAt(z, at, h, 14);
    GetAt(z, at, h, 18);
    GetAt(z, at, h, 22);
    GetAt(z, at, h, 26);
    GetAt(z, at, h, 28);
  }

  lemma ParsesRecord(z: seq<Byte>, at: nat, end: nat, e: ZipEntry, offset: nat)
    requires |e.name| < 0x1_0000 && |e.bytes| < 0x1_0000_0000 && offset < 0x1_0000_0000
    requires At(z, at, CentralHeader(e.name, Crc(e.bytes), |e.bytes|, offset))
    requires at + 46 + |e.name| <= end <= |z|
    ensures ParseRecord(z, at, end) ==
              Ok(Record(e.name, Crc(e.bytes), |e.bytes|, |e.bytes|, offset, at + 46 + |e.name|))
  {
    hide CentralHeader, Get16, Get32, Crc;
    var h := CentralHeader(e.name, Crc(e.bytes), |e.bytes|, offset);
    CentralFields(h, e.name, Crc(e.bytes), |e.bytes|, offset);
    AtInside(z, at, h, 46, |h|);
    GetAt(z, at, h, 0);
    GetAt(z, at, h, 10);
    GetAt(z, at, h, 16);
    GetAt(z, at, h, 20);
    GetAt(z, at, h, 24);
    GetAt(z, at, h, 28);
    GetAt(z, at, h, 30);
    GetAt(z, at, h, 32);
    GetAt(z, at, h, 42);
  }

  /** Where a part of the archive stands: entry `k`'s local header at the offset that its
      central record carries, and that record inside the central directory. */
  lemma {:induction false} PartsInPlace(entries: seq<ZipEntry>, k: nat)
    requires k < |entries|
    ensures var e, front := entries[k], entries[..k];
            && At(Locals(entries), |Locals(front)|, LocalHeader(e.name, Crc(e.bytes), |e.bytes|) + e.bytes)
            && At(Centrals(entries), |Centrals(front)|,
                  CentralHeader(e.name, Crc(e.bytes), |e.bytes|, |Locals(front)|))
            && |Centrals(entries[..k + 1])| == |Centrals(front)| + 46 + |e.name|
  {
    hide LocalHeader, CentralHeader, Crc, Locals, Centrals;
    ArchiveSnoc(entries, k);
    ArchivePrefix(entries, k + 1);
    var e, front := entries[k], entries[..k];
    AtPrefix(Locals(front), LocalHeader(e.name, Crc(e.bytes), |e.bytes|) + e.bytes, Locals(entries));
    AtPrefix(Centrals(front), CentralHeader(e.name, Crc(e.bytes), |e.bytes|, |Locals(front)|), Centrals(entries));
  }

  lemma AtPrefix(p: seq<Byte>, h: seq<Byte>, s: seq<Byte>)
    requires p + h <= s
    ensures At(s, |p|, h)
  {
    assert s[|p|..|p| + |h|] == s[..|p + h|][|p|..] == (p + h)[|p|..];
  }

  lemma {:induction false} ArchivePrefix(entries: seq<ZipEntry>, k: nat)
    requires k <= |entries|
    ensures Locals(entries[..k]) <= Locals(entries) && Centrals(entries[..k]) <= Centrals(entries)
    decreases |entries| - k
  {
    hide LocalHeader, CentralHeader, Crc, Locals, Centrals;
    if k == |entries| {
      assert entries[..k] == entries;
    } else {
      ArchiveSnoc(entries, k);
      ArchivePrefix(entries, k + 1);
    }
  }

  lemma AtShift(z: seq<Byte>, from: nat, part: seq<Byte>, at: nat, h: seq<Byte>)
    requires At(z, from, part) && At(part, at, h)
    ensures At(z, from + at, h)
  {
    AtInside(z, from, part, at, at + |h|);
  }

  /** Reading the records of the entries from `k` on. */
  lemma {:induction false} ReadsRecords(z: seq<Byte>, entries: seq<ZipEntry>, k: nat)
    requires Fits(entries) && k <= |entries|
    requires At(z, 0, Locals(entries)) && At(z, |Locals(entries)|, Centrals(entries))
    ensures ReadRecords(z, |Locals(entries)| + |Centrals(entries[..k])|, |entries| - k,
                        |Locals(entries)| + |Centrals(entries)|) == Ok(entries[k..])
    decreases |entries| - k
  {
    hide LocalHeader, CentralHeader, Crc, Locals, Centrals, ReadLocal, ParseRecord;
    var start, end := |Locals(entries)|, |Locals(entries)| + |Centrals(entries)|;
    if k == |entries| {
      assert entries[..k] == entries;
    } else {
      var e, offset, at := entries[k], |Locals(entries[..k])|, |Centrals(entries[..k])|;
      PartsInPlace(entries, k);
      ArchivePrefix(entries, k);
      ArchivePrefix(entries, k + 1);
      AtShift(z, 0, Locals(entries), offset, LocalHeader(e.name, Crc(e.bytes), |e.bytes|) + e.bytes);
      AtShift(z, start, Centrals(entries), at, CentralHeader(e.name, Crc(e.bytes), |e.bytes|, offset));
      ParsesRecord(z, start + at, end, e, offset);
      ReadsLocal(z, offset, e);
      ReadsRecords(z, entries, k + 1);
      assert [e] + entries[k + 1..] == entries[k..];
    }
  }

  /** A reader that starts from the end record recovers exactly the entries, in order. */
  lemma {:induction false} RoundTrip(entries: seq<ZipEntry>)
    requires Fits(entries)
    ensures ReadZip(ZipBytes(entries)) == Ok(entries)
  {
    hide LocalHeader, CentralHeader, EndRecord, Crc, Locals, Centrals, Get16, Get32, ReadRecords;
    var a, b := Locals(entries), Centrals(entries);
    var c := EndRecord(|entries|, |b|, |a|);
    var z, at := ZipBytes(entries), |a| + |b|;
    assert At(z, 0, a) && At(z, |a|, b) && At(z, at, c);
    EndFields(c, |entries|, |b|, |a|);
    GetAt(z, at, c, 0);
    GetAt(z, at, c, 4);
    GetAt(z, at, c, 6);
    GetAt(z, at, c, 8);
    GetAt(z, at, c, 10);
    GetAt(z, at, c, 12);
    GetAt(z, at, c, 16);
    GetAt(z, at, c, 20);
    ReadsRecords(z, entries, 0);
    NoEntries();
    assert entries[..0] == [] && entries[0..] == entries;
  }

  /** Reading never gives back an entry list whose counts or sizes do not fit their fields. */
  lemma {:induction false} RoundTripNeedsFields(z: seq<Byte>)
    ensures ReadZip(z).Ok? ==> FieldsFit(ReadZip(z).value)
  {
    hide ReadRecords, FindEnd, FieldsFit;
    if ReadZip(z).Ok? {
      var at := FindEnd(z, |z| - 22).value;
      RecordsFit(z, Get32(z, at + 16), Get16(z, at + 10), at);
    }
  }

  lemma {:induction false} RecordsFit(z: seq<Byte>, at: nat, n: nat, end: nat)
    requires end <= |z| && n < 0x1_0000
    ensures var r := ReadRecords(z, at, n, end); r.Ok? ==> FieldsFit(r.value) && |r.value| == n
    decreases n
  {
    hide ReadLocal, ParseRecord;
    if n > 0 && ReadRecords(z, at, n, end).Ok? {
      var r := ParseRecord(z, at, end).value;
      RecordFits(z, at, end);
      RecordsFit(z, r.next, n - 1, end);
    }
  }

  lemma RecordFits(z: seq<Byte>, at: nat, end: nat)
    requires end <= |z|
    ensures var p := ParseRecord(z, at, end);
            p.Ok? ==>
              var e := ReadLocal(z, p.value.offset, p.value.name, p.value.crc, p.value.packed, p.value.size);
              e.Ok? ==> |e.value.name| < 0x1_0000 && |e.value.bytes| < 0x1_0000_0000
  {
  }

  lemma SameByte(x: nat, y: nat)
    ensures (x + 256 * y) % 256 == x % 256
  {
  }

  lemma Cut256(q: nat, r: nat)
    ensures (256 * q + r) / 256 == q + r / 256
  {
  }

  /** Whole multiples of 256^3 above a number leave its low bytes and add to the rest. */
  lemma LowBytes(v: nat, q: nat, r: nat)
    requires v == 0x100_0000 * q + r
    ensures v % 256 == r % 256 && v / 256 % 256 == r / 256 % 256 && v / 65536 % 256 == r / 65536 % 256
    ensures v / 16777216 == q + r / 16777216
  {
    var v1, r1 := v / 256, r / 256;
    SameByte(r, 0x1_0000 * q);
    Cut256(0x1_0000 * q, r);
    SameByte(r1, 0x100 * q);
    Cut256(0x100 * q, r1);
    var v2, r2 := v1 / 256, r1 / 256;
    SameByte(r2, q);
    Cut256(q, r2);
    Halves(v);
    Halves(r);
  }

  lemma Halves(v: nat)
    ensures v / 65536 == v / 256 / 256 && v / 16777216 == v / 256 / 256 / 256
  {
  }

  lemma Wraps(v: nat)
    ensures U16(v) == U16(v % 0x1_0000) && U32(v) == U32(v % 0x1_0000_0000)
  {
    var q, r := v / 0x1_0000_0000, v % 0x1_0000_0000;
    LowBytes(v, 256 * q, r);
    SameByte(r / 16777216, q);
    WrapsShort(v);
  }

  lemma WrapsShort(v: nat)
    ensures U16(v) == U16(v % 0x1_0000)
  {
    var m, n := v / 0x1_0000, v % 0x1_0000;
    SameByte(n, 256 * m);
    Cut256(256 * m, n);
    SameByte(n / 256, m);
  }

  /** A sum of numbers cut down to a field is the sum itself only if neither was cut. */
  lemma NothingCut(a: nat, b: nat)
    requires a % 0x1_0000_0000 + b % 0x1_0000_0000 == a + b
    ensures a < 0x1_0000_0000 && b < 0x1_0000_0000
  {
  }

  /** The round trip succeeds exactly when every count, size and offset fits its field. */
  lemma {:induction false} RoundTripIff(entries: seq<ZipEntry>)
    ensures ReadZip(ZipBytes(entries)) == Ok(entries) <==> Fits(entries)
  {
    hide LocalHeader, CentralHeader, EndRecord, Crc, Locals, Centrals, Get16, Get32, ReadRecords, FieldsFit, ReadZip, ZipBytes;
    if Fits(entries) { RoundTrip(entries); }
    if ReadZip(ZipBytes(entries)) == Ok(entries) {
      RoundTripNeedsFields(ZipBytes(entries));
      EndRecordAddsUp(entries);
    }
  }

  lemma {:induction false} EndRecordAddsUp(entries: seq<ZipEntry>)
    ensures ReadZip(ZipBytes(entries)).Ok? ==> |Locals(entries)| < 0x1_0000_0000 && |Centrals(entries)| < 0x1_0000_0000
  {
    hide LocalHeader, CentralHeader, Crc, Locals, Centrals, Get16, Get32, ReadRecords, U16, U32;
    var a, b := Locals(entries), Centrals(entries);
    var c := EndRecord(|entries|, |b|, |a|);
    var z, at := ZipBytes(entries), |a| + |b|;
    Wraps(|a|);
    Wraps(|b|);
    Wraps(|entries|);
    EndFields(c, |entries| % 0x1_0000, |b| % 0x1_0000_0000, |a| % 0x1_0000_0000);
    hide EndRecord;
    assert At(z, at, c);
    GetAt(z, at, c, 0);
    GetAt(z, at, c, 12);
    GetAt(z, at, c, 16);
    GetAt(z, at, c, 20);
    if ReadZip(z).Ok? { NothingCut(|a|, |b|); }
  }

  // ------------------------------------------------------- a known archive

  /** The archive of one file called "a" that holds an "a", byte for byte. */
  lemma KnownArchive()
    ensures var a: seq<Byte> := [97];
            ZipBytes([ZipEntry(a, a)]) ==
              [80, 75, 3, 4, 20, 0, 0, 8, 0, 0, 0, 0, 33, 0, 0x43, 0xBE, 0xB7, 0xE8, 1, 0, 0, 0, 1, 0, 0, 0, 1, 0, 0, 0, 97]
              + [97]
              + ([80, 75, 1, 2, 20, 0, 20, 0, 0, 8, 0, 0, 0, 0, 33, 0, 0x43, 0xBE, 0xB7, 0xE8, 1, 0, 0, 0, 1, 0, 0, 0, 1, 0]
                 + [0, 0, 0, 0, 0, 0, 0, 0, 0, 0, 0, 0, 0, 0, 0, 0, 97])
              + [80, 75, 5, 6, 0, 0, 0, 0, 1, 0, 1, 0, 47, 0, 0, 0, 32, 0, 0, 0, 0, 0]
  {
    var a: seq<Byte> := [97];
    var es := [ZipEntry(a, a)];
    KnownCrc(a);
    KnownLocal(a);
    KnownCentral(a);
    KnownEnd();
    OneEntry(es);
    hide LocalHeader, CentralHeader, EndRecord, Crc, Locals, Centrals;
  }

  lemma OneEntry(es: seq<ZipEntry>)
    requires |es| == 1
    ensures var e := es[0];
            && Locals(es) == LocalHeader(e.name, Crc(e.bytes), |e.bytes|) + e.bytes
            && Centrals(es) == CentralHeader(e.name, Crc(e.bytes), |e.bytes|, 0)
  {
    hide LocalHeader, CentralHeader, Crc;
    assert es[..0] == [];
  }

  lemma KnownCrc(a: seq<Byte>)
    requires a == [97]
    ensures Crc(a) == 0xE8B7_BE43
  {
    hide Crc32.BitSerial;
    Crc32.KnownAnswer();
    assert AsBits(a) == [0x61];
  }

  lemma KnownNumbers()
    ensures U16(0) == [0, 0] && U16(1) == [1, 0] && U16(20) == [20, 0] && U16(UTF8_FLAG) == [0, 8]
    ensures U16(DOS_TIME) == [0, 0] && U16(DOS_DATE) == [33, 0] && U32(0) == [0, 0, 0, 0] && U32(1) == [1, 0, 0, 0]
    ensures U32(LOCAL_SIG) == [80, 75, 3, 4] && U32(CENTRAL_SIG) == [80, 75, 1, 2] && U32(EOCD_SIG) == [80, 75, 5, 6]
    ensures U32(0xE8B7_BE43) == [0x43, 0xBE, 0xB7, 0xE8]
  {
  }

  lemma KnownLocal(a: seq<Byte>)
    requires a == [97]
    ensures LocalHeader(a, 0xE8B7_BE43, 1) ==
            [80, 75, 3, 4, 20, 0, 0, 8, 0, 0, 0, 0, 33, 0, 0x43, 0xBE, 0xB7, 0xE8, 1, 0, 0, 0, 1, 0, 0, 0, 1, 0, 0, 0, 97]
  {
    KnownNumbers();
    hide U16, U32;
  }

  lemma KnownCentral(a: seq<Byte>)
    requires a == [97]
    ensures CentralHeader(a, 0xE8B7_BE43, 1, 0) ==
            [80, 75, 1, 2, 20, 0, 20, 0, 0, 8, 0, 0, 0, 0, 33, 0, 0x43, 0xBE, 0xB7, 0xE8, 1, 0, 0, 0, 1, 0, 0, 0, 1, 0]
            + [0, 0, 0, 0, 0, 0, 0, 0, 0, 0, 0, 0, 0, 0, 0, 0, 97]
  {
    KnownNumbers();
    var f: seq<Byte> := [80, 75, 1, 2, 20, 0, 20, 0, 0, 8, 0, 0, 0, 0, 33, 0, 0x43, 0xBE, 0xB7, 0xE8, 1, 0, 0, 0, 1, 0, 0, 0, 1, 0];
    var z, zz := U16(0), U32(0);
    hide U16, U32;
    assert U32(CENTRAL_SIG) + U16(20) + U16(20) + U16(UTF8_FLAG) + U16(0) + U16(DOS_TIME) + U16(DOS_DATE)
           + U32(0xE8B7_BE43) + U32(1) + U32(1) + U16(1) == f;
    Regroup(f, z, zz, a);
  }

  lemma Regroup(f: seq<Byte>, z: seq<Byte>, zz: seq<Byte>, a: seq<Byte>)
    ensures f + z + z + z + z + zz + zz + a == f + (z + z + z + z + zz + zz + a)
  {
    assert f + z + z == f + (z + z);
    assert f + (z + z) + z + z == f + (z + z + z + z);
    assert f + (z + z + z + z) + zz + zz == f + (z + z + z + z + zz + zz);
  }

  lemma KnownEnd()
    ensures EndRecord(1, 47, 32) == [80, 75, 5, 6, 0, 0, 0, 0, 1, 0, 1, 0, 47, 0, 0, 0, 32, 0, 0, 0, 0, 0]
  {
  }
}
