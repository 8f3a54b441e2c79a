/**
 The check of a captured PNG before it is published: one pass over the chunks
 of section 3.2 of RFC 2083, narrowed to a few chunk types, then one over the
 inflated rows. The checksum and the inflater are parameters.
 */
module PngScanner {
  import opened Options

  type Byte = x: int | 0 <= x < 256

  const SIGNATURE: seq<Byte> := [0x89, 0x50, 0x4E, 0x47, 0x0D, 0x0A, 0x1A, 0x0A]
  const MAX_CONTENT := 0x100_0000
  const MAX_PIXELS := 0x400_0000
  const MAX_SIDE := 8192

  datatype Kind = IHDR | IDAT | IEND | SRGB | GAMA | CHRM | PHYS | EXIF | OFFS | Other

  function KindOf(name: seq<Byte>): Kind {
    if name == [0x49, 0x48, 0x44, 0x52] then IHDR
    else if name == [0x49, 0x44, 0x41, 0x54] then IDAT
    else if name == [0x49, 0x45, 0x4E, 0x44] then IEND
    else if name == [0x73, 0x52, 0x47, 0x42] then SRGB
    else if name == [0x67, 0x41, 0x4D, 0x41] then GAMA
    else if name == [0x63, 0x48, 0x52, 0x4D] then CHRM
    else if name == [0x70, 0x48, 0x59, 0x73] then PHYS
    else if name == [0x65, 0x58, 0x49, 0x66] then EXIF
    else if name == [0x6F, 0x46, 0x46, 0x73] then OFFS
    else Other
  }

  function Number16(b: seq<Byte>, at: nat): nat
    requires at + 2 <= |b|
  {
    (b[at] as int) * 0x100 + b[at + 1] as int
  }

  /** A four-byte unsigned integer in network order. */
  function Number(b: seq<Byte>, at: nat): nat
    requires at + 4 <= |b|
  {
    (b[at] as int) * 0x100_0000 + (b[at + 1] as int) * 0x1_0000 + (b[at + 2] as int) * 0x100 + b[at + 3] as int
  }

  /** One chunk, byte for byte: length, type, data, checksum. */
  datatype Chunk = Chunk(length: seq<Byte>, name: seq<Byte>, data: seq<Byte>, crc: seq<Byte>)
  {
    predicate Formed() { |length| == |name| == |crc| == 4 && |data| == Number(length, 0) }
    function Bytes(): seq<Byte> { length + name + data + crc }
    function Kind(): Kind { KindOf(name) }
  }

  function Join(chunks: seq<Chunk>): seq<Byte> {
    if chunks == [] then [] else chunks[0].Bytes() + Join(chunks[1..])
  }

  /** The chunks that tile these bytes. */
  function Parse(b: seq<Byte>): Option<seq<Chunk>>
    decreases |b|
  {
    if b == [] then Some([])
    else if |b| < 12 || 12 + Number(b, 0) > |b| then None
    else
      var rest := Parse(b[12 + Number(b, 0)..]);
      if rest.None? then None else Some([First(b)] + rest.value)
  }

  function First(b: seq<Byte>): Chunk
    requires |b| >= 12 && 12 + Number(b, 0) <= |b|
  {
    var size := Number(b, 0);
    Chunk(b[..4], b[4..8], b[8..8 + size], b[8 + size..12 + size])
  }

  // ----- fields -----

  datatype Image = Image(width: int, height: int)

  function RowSize(data: seq<Byte>, image: Image): int
    requires |data| == 13
  {
    image.width * (if data[9] == 2 then 3 else 4) + 1
  }

  predicate HeaderOk(data: seq<Byte>, image: Image) {
    && |data| == 13 && Number(data, 0) == image.width && Number(data, 4) == image.height
    && data[8] == 8 && (data[9] == 2 || data[9] == 6) && data[10] == data[11] == data[12] == 0
    && RowSize(data, image) * image.height <= MAX_PIXELS
  }

  predicate Density(value: int) { 0 < value <= 1_000_000 }

  predicate FieldsOk(kind: Kind, data: seq<Byte>) {
    match kind
    case SRGB => |data| == 1 && data[0] <= 3
    case GAMA => |data| == 4 && Density(Number(data, 0))
    case CHRM =>
      && |data| == 32
      && (forall i :: 0 <= i < 8 ==> Number(data, 4 * i) <= 100_000)
      && (forall i :: 0 <= i < 4 ==> 0 < Number(data, 8 * i) + Number(data, 8 * i + 4) <= 100_000)
    case PHYS => |data| == 9 && data[8] <= 1 && Density(Number(data, 0)) && Density(Number(data, 4))
    case EXIF =>
      && |data| == 54 && data[..8] == [0x4D, 0x4D, 0, 42, 0, 0, 0, 24] && data[24..26] == [0, 2]
      && Number16(data, 26) == 282 && Number16(data, 28) == 5 && Number(data, 30) == 1 && Number(data, 34) == 8
      && Number16(data, 38) == 283 && Number16(data, 40) == 5 && Number(data, 42) == 1 && Number(data, 46) == 16
      && Number(data, 50) == 0
      && (forall i :: 2 <= i < 6 ==> Density(Number(data, 4 * i)))
    case OFFS => data == [0, 0, 0, 0, 0, 0, 0, 0, 0]
    case _ => true
  }

  predicate IsMetadata(kind: Kind) { !kind.IHDR? && !kind.IDAT? && !kind.IEND? && !kind.Other? }

  // ----- what the pass admits, chunk by chunk -----

  function Kinds(chunks: seq<Chunk>): set<Kind> { set i | 0 <= i < |chunks| :: chunks[i].Kind() }

  predicate Admits(seen: set<Kind>, c: Chunk, last: bool, image: Image) {
    && !c.Kind().Other?
    && (if seen == {} then c.Kind().IHDR? && HeaderOk(c.data, image)
        else match c.Kind()
          case IDAT => true
          case IEND => c.data == [] && last && IDAT in seen
          case kind => !kind.IHDR? && kind !in seen && IDAT !in seen && FieldsOk(kind, c.data))
  }

  predicate CrcOk(c: Chunk, crc: seq<Byte> -> nat)
    requires |c.crc| == 4
  {
    crc(c.name + c.data) == Number(c.crc, 0)
  }

  predicate Passes(chunks: seq<Chunk>, image: Image) {
    && (forall k :: 0 <= k < |chunks| ==> Admits(Kinds(chunks[..k]), chunks[k], k == |chunks| - 1, image))
    && IEND in Kinds(chunks)
  }

  function Compressed(chunks: seq<Chunk>): seq<Byte> {
    if chunks == [] then []
    else Compressed(chunks[..|chunks| - 1]) + if chunks[|chunks| - 1].Kind().IDAT? then chunks[|chunks| - 1].data else []
  }

  /** The inflated image: every row there, each with a known filter. */
  predicate RowsOk(decoded: seq<Byte>, rowSize: int, height: int) {
    && rowSize > 0 && |decoded| == rowSize * height
    && forall row :: 0 <= row < height ==> RowOk(decoded, rowSize, row)
  }

  predicate RowOk(decoded: seq<Byte>, rowSize: int, row: int) {
    0 <= row * rowSize < |decoded| ==> decoded[row * rowSize] <= 4
  }

  /** What `verify_png` accepts. */
  ghost predicate Accepts(content: seq<Byte>, image: Image, crc: seq<Byte> -> nat, inflate: seq<Byte> -> Option<seq<Byte>>) {
    && 0 < image.width <= MAX_SIDE && 0 < image.height <= MAX_SIDE && |content| <= MAX_CONTENT
    && SIGNATURE <= content
    && var parsed := Parse(content[8..]);
       && parsed.Some? && Formed(parsed.value) && Passes(parsed.value, image)
       && (forall k :: 0 <= k < |parsed.value| ==> CrcOk(parsed.value[k], crc))
       && |parsed.value| > 0 && |parsed.value[0].data| == 13
       && var decoded := inflate(Compressed(parsed.value));
          decoded.Some? && RowsOk(decoded.value, RowSize(parsed.value[0].data, image), image.height)
  }

  predicate Formed(chunks: seq<Chunk>) { forall k :: 0 <= k < |chunks| ==> chunks[k].Formed() }

  // ----- parsing and joining are inverse -----

  lemma FirstBytes(b: seq<Byte>)
    requires |b| >= 12 && 12 + Number(b, 0) <= |b|
    ensures First(b).Formed() && First(b).Bytes() == b[..12 + Number(b, 0)]
  {
    var size := Number(b, 0);
    assert Number(b[..4], 0) == size;
    assert b[..4] + b[4..8] == b[..8];
    assert b[..8] + b[8..8 + size] == b[..8 + size];
    assert b[..8 + size] + b[8 + size..12 + size] == b[..12 + size];
  }

  lemma {:induction false} ParseJoins(b: seq<Byte>)
    requires Parse(b).Some?
    ensures Join(Parse(b).value) == b && Formed(Parse(b).value)
    decreases |b|
  {
    hide First, Number;
    if b != [] {
      var n := 12 + Number(b, 0);
      ParseJoins(b[n..]);
      FirstBytes(b);
      var rest := Parse(b[n..]).value;
      assert ([First(b)] + rest)[1..] == rest;
      assert b == b[..n] + b[n..];
    }
  }

  lemma {:induction false} JoinParses(chunks: seq<Chunk>)
    requires Formed(chunks)
    ensures Parse(Join(chunks)) == Some(chunks)
  {
    if chunks != [] {
      JoinFirst(chunks[0], Join(chunks[1..]));
      JoinParses(chunks[1..]);
      assert [chunks[0]] + chunks[1..] == chunks;
    }
  }

  lemma JoinFirst(c: Chunk, rest: seq<Byte>)
    requires c.Formed()
    ensures var b := c.Bytes() + rest;
            |b| >= 12 && 12 + Number(b, 0) == |c.Bytes()| <= |b| && First(b) == c && b[12 + Number(b, 0)..] == rest
  {
    var b := c.Bytes() + rest;
    assert b[..4] == c.length && b[4..8] == c.name;
    assert Number(b, 0) == Number(c.length, 0);
    assert b[8..8 + |c.data|] == c.data && b[8 + |c.data|..12 + |c.data|] == c.crc;
  }

  // ----- the pass over the bytes -----

  /** The loop of `verify_png` over the chunks. */
  method ScanChunks(content: seq<Byte>, image: Image, crc: seq<Byte> -> nat) returns (ok: bool, compressed: seq<Byte>, rowSize: int)
    requires SIGNATURE <= content
    ensures ok <==> Scans(content, image, crc)
    ensures ok ==> var chunks := Parse(content[8..]).value;
                   compressed == Compressed(chunks) && |chunks| > 0 && |chunks[0].data| == 13 && rowSize == RowSize(chunks[0].data, image)
  {
    hide Admits, CrcOk, Number, Kinds, HeaderOk, FieldsOk, RowSize, Compressed;
    var offset := 8;
    var kinds: set<Kind> := {};
    compressed, rowSize := [], 0;
    ghost var done: seq<Chunk> := [];
    NothingScanned(content);
    while offset < |content|
      invariant 8 <= offset <= |content|
      invariant Continued(content, done, offset) && kinds == Kinds(done) && compressed == Compressed(done)
      invariant Formed(done) && forall k :: 0 <= k < |done| ==> CrcOk(done[k], crc)
      invariant forall k :: 0 <= k < |done| ==> Admits(Kinds(done[..k]), done[k], k == |done| - 1 && offset == |content|, image)
      invariant done != [] ==> |done[0].data| == 13 && rowSize == RowSize(done[0].data, image)
      invariant kinds == {} <==> done == []
    {
      if offset + 12 > |content| {
        Refused(content, done, offset);
        return false, [], 0;
      }
      var size := Number(content, offset);
      NumberAt(content, offset);
      var end := offset + 12 + size;
      if end > |content| {
        Refused(content, done, offset);
        return false, [], 0;
      }
      var c := Chunk(content[offset..offset + 4], content[offset + 4..offset + 8], content[offset + 8..end - 4], content[end - 4..end]);
      NextChunk(content, done, offset, c);
      if !CrcOk(c, crc) || !Admits(kinds, c, end == |content|, image) {
        NotScanned(content, done, end, c, image, crc);
        return false, [], 0;
      }
      if kinds == {} {
        HeaderFirst(c, end == |content|, image);
        rowSize := RowSize(c.data, image);
      }
      if c.Kind().IDAT? { compressed := compressed + c.data; }
      OneMore(done, c);
      StillAdmitted(done, c, end == |content|, image);
      kinds := kinds + {c.Kind()};
      done := done + [c];
      offset := end;
    }
    AllScanned(content, done, image, crc);
    ok := IEND in kinds;
  }

  /** The chunks of the content pass, one after the other. */
  predicate Scans(content: seq<Byte>, image: Image, crc: seq<Byte> -> nat)
    requires SIGNATURE <= content
  {
    var parsed := Parse(content[8..]);
    && parsed.Some? && Formed(parsed.value) && Passes(parsed.value, image)
    && (forall k :: 0 <= k < |parsed.value| ==> CrcOk(parsed.value[k], crc))
  }

  /** What is parsed so far, and what the rest still decides. */
  predicate Continued(content: seq<Byte>, done: seq<Chunk>, offset: nat)
    requires 8 <= offset <= |content|
  {
    var rest := Parse(content[offset..]);
    Parse(content[8..]) == if rest.None? then None else Some(done + rest.value)
  }

  lemma NothingScanned(content: seq<Byte>)
    requires |content| >= 8
    ensures Continued(content, [], 8) && Kinds([]) == {} && Compressed([]) == []
  {
    var rest := Parse(content[8..]);
    assert rest.Some? ==> [] + rest.value == rest.value;
  }

  lemma NumberAt(content: seq<Byte>, offset: nat)
    requires offset + 4 <= |content|
    ensures Number(content, offset) == Number(content[offset..], 0)
  {
  }

  lemma Refused(content: seq<Byte>, done: seq<Chunk>, offset: nat)
    requires 8 <= offset < |content| && Continued(content, done, offset)
    requires |content[offset..]| < 12 || 12 + Number(content[offset..], 0) > |content[offset..]|
    ensures Parse(content[8..]).None?
  {
  }

  lemma SliceOfRest<T>(s: seq<T>, start: nat, from: nat, to: nat)
    requires from <= to && start + to <= |s|
    ensures s[start..][from..to] == s[start + from..start + to] && s[start..][to..] == s[start + to..]
  {
  }

  lemma NextChunk(content: seq<Byte>, done: seq<Chunk>, offset: nat, c: Chunk)
    requires 8 <= offset && offset + 12 <= |content| && Continued(content, done, offset)
    requires offset + 12 + Number(content[offset..], 0) <= |content|
    requires var end := offset + 12 + Number(content[offset..], 0);
             c == Chunk(content[offset..offset + 4], content[offset + 4..offset + 8], content[offset + 8..end - 4], content[end - 4..end])
    ensures c.Formed() && Continued(content, done + [c], offset + 12 + Number(content[offset..], 0))
  {
    hide Number;
    var rest := content[offset..];
    var n := 12 + Number(rest, 0);
    FirstBytes(rest);
    SliceOfRest(content, offset, 0, 4);
    SliceOfRest(content, offset, 4, 8);
    SliceOfRest(content, offset, 8, n - 4);
    SliceOfRest(content, offset, n - 4, n);
    assert First(rest) == c;
    var after := Parse(rest[n..]);
    assert after.Some? ==> done + ([c] + after.value) == done + [c] + after.value;
  }

  /** A chunk that is not admitted spoils the whole file. */
  lemma NotScanned(content: seq<Byte>, done: seq<Chunk>, end: nat, c: Chunk, image: Image, crc: seq<Byte> -> nat)
    requires SIGNATURE <= content && 8 <= end <= |content| && c.Formed() && Continued(content, done + [c], end)
    requires !CrcOk(c, crc) || !Admits(Kinds(done), c, end == |content|, image)
    ensures !Scans(content, image, crc)
  {
    hide Admits, CrcOk;
    var parsed, rest := Parse(content[8..]), Parse(content[end..]);
    if parsed.Some? {
      var k := |done|;
      assert parsed.value == done + [c] + rest.value;
      assert parsed.value[k] == c && parsed.value[..k] == done;
      assert k == |parsed.value| - 1 <==> end == |content| by { EmptyParse(content[end..]); }
    }
  }

  lemma EmptyParse(b: seq<Byte>)
    requires Parse(b).Some?
    ensures Parse(b).value == [] <==> b == []
  {
  }

  lemma HeaderFirst(c: Chunk, last: bool, image: Image)
    requires Admits({}, c, last, image)
    ensures |c.data| == 13
  {
  }

  lemma OneMore(done: seq<Chunk>, c: Chunk)
    ensures Kinds(done + [c]) == Kinds(done) + {c.Kind()}
    ensures Compressed(done + [c]) == Compressed(done) + if c.Kind().IDAT? then c.data else []
  {
    var more := done + [c];
    assert more[..|done|] == done;
    forall kind ensures kind in Kinds(more) <==> kind in Kinds(done) || kind == c.Kind() {
      if kind in Kinds(done) {
        var i :| 0 <= i < |done| && done[i].Kind() == kind;
        assert more[i].Kind() == kind;
      }
      assert more[|done|].Kind() == c.Kind();
    }
  }

  lemma StillAdmitted(done: seq<Chunk>, c: Chunk, last: bool, image: Image)
    requires forall k :: 0 <= k < |done| ==> Admits(Kinds(done[..k]), done[k], false, image)
    requires Admits(Kinds(done), c, last, image)
    ensures forall k :: 0 <= k <= |done| ==> Admits(Kinds((done + [c])[..k]), (done + [c])[k], k == |done| && last, image)
  {
    hide Admits, Kinds;
    var more := done + [c];
    forall k | 0 <= k <= |done| ensures Admits(Kinds(more[..k]), more[k], k == |done| && last, image) {
      assert k < |done| ==> more[..k] == done[..k];
      assert k == |done| ==> more[..k] == done;
    }
  }

  lemma AllScanned(content: seq<Byte>, done: seq<Chunk>, image: Image, crc: seq<Byte> -> nat)
    requires SIGNATURE <= content && Continued(content, done, |content|) && Formed(done)
    requires forall k :: 0 <= k < |done| ==> CrcOk(done[k], crc)
    requires forall k :: 0 <= k < |done| ==> Admits(Kinds(done[..k]), done[k], k == |done| - 1, image)
    ensures Parse(content[8..]) == Some(done) && (Scans(content, image, crc) <==> IEND in Kinds(done))
  {
    hide Admits, CrcOk, Kinds;
    assert content[|content|..] == [] && done + [] == done;
  }

  /** `verify_png`. */
  method VerifyPng(content: seq<Byte>, image: Image, crc: seq<Byte> -> nat, inflate: seq<Byte> -> Option<seq<Byte>>) returns (ok: bool)
    ensures ok <==> Accepts(content, image, crc, inflate)
  {
    hide Passes, CrcOk, Formed, Number, Compressed, Parse;
    if !(0 < image.width <= MAX_SIDE && 0 < image.height <= MAX_SIDE && |content| <= MAX_CONTENT) { return false; }
    if !(SIGNATURE <= content) { return false; }
    var scanned, compressed, rowSize := ScanChunks(content, image, crc);
    if !scanned { return false; }
    var decoded := inflate(compressed);
    if decoded.None? { return false; }
    ok := CheckRows(decoded.value, rowSize, image.height);
  }

  /** Every row starts with a filter type from 0 to 4. */
  method CheckRows(decoded: seq<Byte>, rowSize: int, height: int) returns (ok: bool)
    requires height > 0
    ensures ok <==> RowsOk(decoded, rowSize, height)
  {
    if rowSize <= 0 || |decoded| != rowSize * height { return false; }
    var row := 0;
    while row < height
      invariant 0 <= row <= height
      invariant forall r :: 0 <= r < row ==> RowOk(decoded, rowSize, r)
    {
      RowInside(rowSize, height, row);
      if decoded[row * rowSize] > 4 {
        assert !RowOk(decoded, rowSize, row);
        return false;
      }
      row := row + 1;
    }
    ok := true;
  }

  lemma RowInside(rowSize: int, height: int, row: int)
    requires rowSize > 0 && 0 <= row < height
    ensures 0 <= row * rowSize < rowSize * height
  {
  }

  // ----- the grammar -----

  predicate At(chunks: seq<Chunk>, k: nat, kind: Kind) { k < |chunks| && chunks[k].Kind() == kind }

  /** A header, distinct allowed metadata chunks, consecutive image data, and a
      final empty end chunk with nothing after it. */
  ghost predicate Grammar(chunks: seq<Chunk>, image: Image) {
    exists m :: GrammarAt(chunks, image, m)
  }

  ghost predicate GrammarAt(chunks: seq<Chunk>, image: Image, m: nat) {
    var n := |chunks| - 1;
    && 1 <= m < n
    && At(chunks, 0, IHDR) && HeaderOk(chunks[0].data, image)
    && (forall k :: 1 <= k < m ==> IsMetadata(chunks[k].Kind()) && FieldsOk(chunks[k].Kind(), chunks[k].data))
    && (forall j, k :: 1 <= j < k < m ==> chunks[j].Kind() != chunks[k].Kind())
    && (forall k :: m <= k < n ==> At(chunks, k, IDAT))
    && At(chunks, n, IEND) && chunks[n].data == []
  }

  lemma {:induction false} FirstOf(chunks: seq<Chunk>, kind: Kind) returns (m: nat)
    requires kind in Kinds(chunks)
    ensures At(chunks, m, kind) && kind !in Kinds(chunks[..m])
  {
    assert forall i :: 0 <= i < |chunks| - 1 ==> chunks[..|chunks| - 1][i].Kind() == chunks[i].Kind();
    if kind in Kinds(chunks[..|chunks| - 1]) {
      m := FirstOf(chunks[..|chunks| - 1], kind);
      assert chunks[..|chunks| - 1][..m] == chunks[..m];
    } else {
      m := |chunks| - 1;
    }
  }

  lemma KindAt(chunks: seq<Chunk>, j: nat, k: nat)
    requires j < k <= |chunks|
    ensures chunks[j].Kind() in Kinds(chunks[..k])
  {
    assert chunks[..k][j] == chunks[j];
  }

  lemma PassesGrammar(chunks: seq<Chunk>, image: Image)
    requires Passes(chunks, image)
    ensures Grammar(chunks, image)
  {
    hide HeaderOk, FieldsOk, Kinds;
    var e := FirstOf(chunks, IEND);
    assert Admits(Kinds(chunks[..e]), chunks[e], e == |chunks| - 1, image);
    var m := FirstOf(chunks[..e], IDAT);
    assert chunks[..e][..m] == chunks[..m] && chunks[..e][m] == chunks[m];
    NoKinds(chunks);
    forall k | 0 <= k < e
      ensures k == 0 ==> chunks[k].Kind().IHDR? && HeaderOk(chunks[k].data, image)
      ensures 1 <= k < m ==> IsMetadata(chunks[k].Kind()) && FieldsOk(chunks[k].Kind(), chunks[k].data)
      ensures m <= k ==> At(chunks, k, IDAT)
      ensures forall j :: 0 <= j < k < m ==> chunks[j].Kind() != chunks[k].Kind()
    {
      assert Admits(Kinds(chunks[..k]), chunks[k], k == |chunks| - 1, image);
      if m < k { KindAt(chunks, m, k); }
      if k < m { KindAt(chunks, k, m); }
      forall j | 0 <= j < k ensures chunks[j].Kind() in Kinds(chunks[..k]) { KindAt(chunks, j, k); }
      if k > 0 { KindAt(chunks, 0, k); }
    }
    assert m > 0 by {
      assert Admits(Kinds(chunks[..0]), chunks[0], 0 == |chunks| - 1, image);
    }
    assert GrammarAt(chunks, image, m);
  }

  lemma NoKinds(chunks: seq<Chunk>)
    ensures Kinds(chunks[..0]) == {}
  {
  }

  lemma KindsUpTo(chunks: seq<Chunk>, k: nat, kind: Kind)
    requires k <= |chunks|
    ensures kind in Kinds(chunks[..k]) <==> exists j :: 0 <= j < k && At(chunks, j, kind)
  {
    forall j | 0 <= j < k ensures chunks[..k][j] == chunks[j] {
    }
    if kind in Kinds(chunks[..k]) {
      var j :| 0 <= j < k && chunks[..k][j].Kind() == kind;
      assert At(chunks, j, kind);
    }
  }

  lemma GrammarPasses(chunks: seq<Chunk>, image: Image)
    requires Grammar(chunks, image)
    ensures Passes(chunks, image)
  {
    hide HeaderOk, FieldsOk, Kinds;
    var m :| GrammarAt(chunks, image, m);
    NoKinds(chunks);
    forall k | 0 <= k < |chunks| ensures Admits(Kinds(chunks[..k]), chunks[k], k == |chunks| - 1, image) {
      KindsUpTo(chunks, k, chunks[k].Kind());
      KindsUpTo(chunks, k, IDAT);
      if k == 0 {
        assert At(chunks, 0, IHDR);
      } else {
        KindAt(chunks, 0, k);
        if k < m {
          assert IsMetadata(chunks[k].Kind());
        } else if k == |chunks| - 1 {
          KindAt(chunks, m, k);
          assert At(chunks, m, IDAT) && At(chunks, k, IEND);
        } else {
          assert At(chunks, k, IDAT);
        }
      }
    }
    assert chunks[..|chunks|] == chunks;
    KindAt(chunks, |chunks| - 1, |chunks|);
  }

  /** The accepted files are exactly those that are a signature and a sequence
      of chunks of this grammar, with right checksums, whose image data, in file
      order, inflates to the announced rows. */
  lemma AcceptedIsGrammar(content: seq<Byte>, image: Image, crc: seq<Byte> -> nat, inflate: seq<Byte> -> Option<seq<Byte>>)
    requires Accepts(content, image, crc, inflate)
    ensures var chunks := Parse(content[8..]).value;
            && content == SIGNATURE + Join(chunks) && Formed(chunks) && Grammar(chunks, image)
            && (forall k :: 0 <= k < |chunks| ==> CrcOk(chunks[k], crc))
            && inflate(Compressed(chunks)).Some? && RowsOk(inflate(Compressed(chunks)).value, RowSize(chunks[0].data, image), image.height)
  {
    hide Passes, CrcOk, RowsOk, Compressed, Formed, Grammar;
    ParseJoins(content[8..]);
    assert content == content[..8] + content[8..];
    PassesGrammar(Parse(content[8..]).value, image);
  }

  lemma GrammarIsAccepted(chunks: seq<Chunk>, image: Image, crc: seq<Byte> -> nat, inflate: seq<Byte> -> Option<seq<Byte>>)
    requires Formed(chunks) && Grammar(chunks, image)
    requires 0 < image.width <= MAX_SIDE && 0 < image.height <= MAX_SIDE && |SIGNATURE + Join(chunks)| <= MAX_CONTENT
    requires forall k :: 0 <= k < |chunks| ==> CrcOk(chunks[k], crc)
    requires |chunks| > 0 && |chunks[0].data| == 13 && inflate(Compressed(chunks)).Some?
    requires RowsOk(inflate(Compressed(chunks)).value, RowSize(chunks[0].data, image), image.height)
    ensures Accepts(SIGNATURE + Join(chunks), image, crc, inflate)
  {
    hide Passes, CrcOk, RowsOk, Compressed, Grammar;
    JoinParses(chunks);
    GrammarPasses(chunks, image);
    assert (SIGNATURE + Join(chunks))[8..] == Join(chunks);
  }
}
