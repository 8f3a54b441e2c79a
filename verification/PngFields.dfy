/**
 The bytes of the chunks that are admitted, as an encoder would write them: the
 check accepts exactly these. Numbers are unsigned, in network order, as in
 section 2.1 of RFC 2083.
 */
module PngFields {
  import opened Options
  import opened PngScanner

  function Ascii(s: string): (b: seq<Byte>)
    requires forall i :: 0 <= i < |s| ==> s[i] < 128 as char
    ensures |b| == |s|
  {
    seq(|s|, i requires 0 <= i < |s| => s[i] as int)
  }

  /** A number in `width` bytes, most significant first. */
  function Big(n: nat, width: nat): (b: seq<Byte>)
    ensures |b| == width
  {
    if width == 0 then [] else Big(n / 256, width - 1) + [n % 256]
  }

  /** A number and the bytes it takes. */
  datatype Field = Field(n: nat, width: nat)

  function Pack(fields: seq<Field>): seq<Byte> {
    if fields == [] then [] else Big(fields[0].n, fields[0].width) + Pack(fields[1..])
  }

  /** The bytes from `at` on are these fields, one after the other. */
  predicate Reads(data: seq<Byte>, at: nat, fields: seq<Field>)
    decreases |fields|
  {
    if fields == [] then at == |data|
    else
      && at + fields[0].width <= |data| && data[at..at + fields[0].width] == Big(fields[0].n, fields[0].width)
      && Reads(data, at + fields[0].width, fields[1..])
  }

  lemma {:induction false} PackReads(data: seq<Byte>, at: nat, fields: seq<Field>)
    requires at <= |data|
    ensures data[at..] == Pack(fields) <==> Reads(data, at, fields)
    decreases |fields|
  {
    if fields != [] {
      var next := at + fields[0].width;
      if next <= |data| {
        PackReads(data, next, fields[1..]);
        assert data[at..] == data[at..next] + data[next..];
        assert data[at..][..fields[0].width] == data[at..next] && data[at..][fields[0].width..] == data[next..];
        if data[at..] == Pack(fields) {
          var first, rest := Big(fields[0].n, fields[0].width), Pack(fields[1..]);
          assert (first + rest)[..fields[0].width] == first && (first + rest)[fields[0].width..] == rest;
        }
      }
    }
  }

  function Size(fields: seq<Field>): nat {
    if fields == [] then 0 else fields[0].width + Size(fields[1..])
  }

  lemma {:induction false} ReadsBoth(data: seq<Byte>, at: nat, a: seq<Field>, b: seq<Field>)
    requires at <= |data|
    ensures Reads(data, at, a + b) <==>
            && at + Size(a) <= |data| && Reads(data[..at + Size(a)], at, a) && Reads(data, at + Size(a), b)
    decreases |a|
  {
    hide Big;
    if a == [] {
      assert a + b == b;
    } else {
      assert (a + b)[0] == a[0] && (a + b)[1..] == a[1..] + b;
      var next := at + a[0].width;
      if next <= |data| {
        ReadsBoth(data, next, a[1..], b);
        if at + Size(a) <= |data| { assert data[..at + Size(a)][at..next] == data[at..next]; }
      }
    }
  }

  lemma LastDigit(n: nat, m: nat, d: nat)
    requires d < 256
    ensures n == 256 * m + d <==> n / 256 == m && n % 256 == d
  {
  }

  lemma BigFour(n: nat)
    requires n < 0x1_0000_0000
    ensures Big(n, 4) == [n / 256 / 256 / 256 % 256, n / 256 / 256 % 256, n / 256 % 256, n % 256]
  {
    assert Big(n, 4) == Big(n / 256 / 256, 2) + [n / 256 % 256] + [n % 256];
    assert Big(n / 256 / 256, 2) == [n / 256 / 256 / 256 % 256] + [n / 256 / 256 % 256];
  }

  lemma NumberNested(b: seq<Byte>, at: nat)
    requires at + 4 <= |b|
    ensures Number(b, at) == 256 * (256 * (256 * (b[at] as int) + b[at + 1] as int) + b[at + 2] as int) + b[at + 3] as int
  {
  }

  /** Reading a number is the inverse of writing it. */
  lemma NumberExactly(b: seq<Byte>, at: nat, n: nat)
    requires at + 4 <= |b| && n < 0x1_0000_0000
    ensures Number(b, at) == n <==> b[at..at + 4] == Big(n, 4)
    ensures Number(b, at) < 0x1_0000_0000
  {
    BigFour(n);
    NumberNested(b, at);
    hide Number, Big;
    var b0, b1, b2, b3 := b[at], b[at + 1], b[at + 2], b[at + 3];
    assert b[at..at + 4] == [b0, b1, b2, b3];
    Digits(n, b0, b1, b2, b3);
  }

  lemma Digits(n: nat, b0: Byte, b1: Byte, b2: Byte, b3: Byte)
    requires n < 0x1_0000_0000
    ensures n == 256 * (256 * (256 * (b0 as int) + b1 as int) + b2 as int) + b3 as int <==>
            b0 == n / 256 / 256 / 256 % 256 && b1 == n / 256 / 256 % 256 && b2 == n / 256 % 256 && b3 == n % 256
    ensures 256 * (256 * (256 * (b0 as int) + b1 as int) + b2 as int) + b3 as int < 0x1_0000_0000
  {
    LastDigit(n, 256 * (256 * (b0 as int) + b1 as int) + b2 as int, b3);
    LastDigit(n / 256, 256 * (b0 as int) + b1 as int, b2);
    LastDigit(n / 256 / 256, b0, b1);
    assert n / 256 / 256 / 256 < 256;
  }

  lemma Number16Exactly(b: seq<Byte>, at: nat, n: nat)
    requires at + 2 <= |b| && n < 0x1_0000
    ensures Number16(b, at) == n <==> b[at..at + 2] == Big(n, 2)
  {
    assert Big(n, 2) == [n / 256 % 256] + [n % 256];
    assert b[at..at + 2] == [b[at], b[at + 1]];
  }

  // ----- chunk types -----

  function NameOf(kind: Kind): (s: string)
    requires !kind.Other?
    ensures |s| == 4 && forall i :: 0 <= i < 4 ==> s[i] < 128 as char
  {
    match kind
    case IHDR => "IHDR"
    case IDAT => "IDAT"
    case IEND => "IEND"
    case SRGB => "sRGB"
    case GAMA => "gAMA"
    case CHRM => "cHRM"
    case PHYS => "pHYs"
    case EXIF => "eXIf"
    case OFFS => "oFFs"
  }

  /** A chunk is of a kind exactly when it carries its name. */
  lemma KindExactly(name: seq<Byte>, kind: Kind)
    requires !kind.Other?
    ensures KindOf(name) == kind <==> name == Ascii(NameOf(kind))
  {
    if |name| == 4 { assert name == [name[0], name[1], name[2], name[3]]; }
  }

  // ----- the header -----

  datatype Color = Rgb | Rgba

  function Code(color: Color): Byte { if color.Rgb? then 2 else 6 }
  function Samples(color: Color): string { if color.Rgb? then "RGB" else "RGBA" }

  /** Eight bits a sample, no interlacing, the only compression and filtering. */
  function Header(image: Image, color: Color): seq<Byte>
    requires 0 <= image.width && 0 <= image.height
  {
    Big(image.width, 4) + Big(image.height, 4) + [8, Code(color), 0, 0, 0]
  }

  predicate Small(image: Image, color: Color) {
    (1 + image.width * |Samples(color)|) * image.height <= 64 * 1024 * 1024
  }

  lemma Joined(a: seq<Byte>, b: seq<Byte>, c: seq<Byte>, data: seq<Byte>)
    requires |a| == |b| == 4
    ensures data == a + b + c <==> |data| == 8 + |c| && data[..4] == a && data[4..8] == b && data[8..] == c
  {
    if |data| == 8 + |c| && data[..4] == a && data[4..8] == b && data[8..] == c {
      assert data == data[..4] + data[4..8] + data[8..];
    }
  }

  /** The header announces this image in one of the two colour types. */
  lemma HeaderExactly(data: seq<Byte>, image: Image)
    requires 0 < image.width <= 8192 && 0 < image.height <= 8192
    ensures HeaderOk(data, image) <==> exists color :: Small(image, color) && data == Header(image, color)
    ensures forall color :: data == Header(image, color) ==> RowSize(data, image) == 1 + image.width * |Samples(color)|
  {
    forall color ensures data == Header(image, color) ==> |data| == 13 && data[9] == Code(color) {
      Joined(Big(image.width, 4), Big(image.height, 4), [8, Code(color), 0, 0, 0], data);
    }
    if |data| == 13 {
      NumberExactly(data, 0, image.width);
      NumberExactly(data, 4, image.height);
      var color := if data[9] == 2 then Rgb else Rgba;
      Joined(Big(image.width, 4), Big(image.height, 4), [8, Code(color), 0, 0, 0], data);
      assert data[8..] == [data[8], data[9], data[10], data[11], data[12]];
      if HeaderOk(data, image) { assert Small(image, color) && data == Header(image, color); }
    }
  }

  // ----- the metadata -----

  predicate Dense(n: nat) { 1 <= n <= 1_000_000 }

  /** The white point and the three primaries: pairs of coordinates, in hundred
      thousandths, that are not both zero and add up to at most one. */
  predicate Chromatic(values: seq<nat>) {
    && |values| == 8
    && (forall i :: 0 <= i < 8 ==> values[i] <= 100_000)
    && 1 <= values[0] + values[1] <= 100_000 && 1 <= values[2] + values[3] <= 100_000
    && 1 <= values[4] + values[5] <= 100_000 && 1 <= values[6] + values[7] <= 100_000
  }

  lemma BigOne(data: seq<Byte>, at: nat, n: nat)
    requires at < |data| && n < 256
    ensures data[at..at + 1] == Big(n, 1) <==> data[at] == n
  {
    assert Big(n, 1) == [] + [n % 256] == [n];
    assert data[at..at + 1] == [data[at]];
  }

  /** One of the four rendering intents, in one byte. */
  predicate Rendering(data: seq<Byte>, intent: nat) { intent <= 3 && data == Big(intent, 1) }

  lemma SrgbExactly(data: seq<Byte>)
    ensures FieldsOk(SRGB, data) <==> exists intent: nat :: Rendering(data, intent)
  {
    if FieldsOk(SRGB, data) {
      BigOne(data, 0, data[0]);
      assert data[0..1] == data;
      assert Rendering(data, data[0]);
    }
    forall intent: nat | Rendering(data, intent) ensures FieldsOk(SRGB, data) {
      assert Big(intent, 1) == [] + [intent % 256] == [intent];
    }
  }

  lemma GammaExactly(data: seq<Byte>)
    ensures FieldsOk(GAMA, data) <==> exists gamma: nat :: Dense(gamma) && data == Big(gamma, 4)
  {
    if |data| == 4 {
      assert data[0..4] == data;
      var gamma := Number(data, 0);
      NumberExactly(data, 0, 0);
      NumberExactly(data, 0, gamma);
      forall n: nat | Dense(n) && data == Big(n, 4) ensures n == gamma { NumberExactly(data, 0, n); }
    }
  }

  lemma OffsetExactly(data: seq<Byte>)
    ensures FieldsOk(OFFS, data) <==> data == Big(0, 9)
  {
    Zeros(9);
    assert Big(0, 9) == [0, 0, 0, 0, 0, 0, 0, 0, 0];
  }

  lemma {:induction false} Zeros(width: nat)
    ensures forall i :: 0 <= i < width ==> Big(0, width)[i] == 0
  {
    if width > 0 { Zeros(width - 1); }
  }

  // ----- chromaticities -----

  function Words(values: seq<nat>): (fields: seq<Field>)
    ensures |fields| == |values| && forall i :: 0 <= i < |values| ==> fields[i] == Field(values[i], 4)
  {
    seq(|values|, i requires 0 <= i < |values| => Field(values[i], 4))
  }

  lemma {:induction false} WordsRead(data: seq<Byte>, at: nat, values: seq<nat>)
    requires forall i :: 0 <= i < |values| ==> values[i] < 0x1_0000_0000
    ensures Reads(data, at, Words(values)) <==>
            |data| == at + 4 * |values| && forall i :: 0 <= i < |values| ==> Number(data, at + 4 * i) == values[i]
    decreases |values|
  {
    hide Number;
    if values != [] {
      assert Words(values)[1..] == Words(values[1..]);
      WordsRead(data, at + 4, values[1..]);
      if at + 4 <= |data| { NumberExactly(data, at, values[0]); }
      if |data| == at + 4 * |values| {
        forall i | 1 <= i < |values|
          ensures at + 4 * i == at + 4 + 4 * (i - 1) && values[i] == values[1..][i - 1]
        {
        }
      }
    }
  }

  lemma ChromaticityExactly(data: seq<Byte>)
    ensures FieldsOk(CHRM, data) <==> exists values :: Chromatic(values) && data == Pack(Words(values))
  {
    hide Number;
    assert data[0..] == data;
    forall values | Chromatic(values)
      ensures data == Pack(Words(values)) <==> |data| == 32 && forall i :: 0 <= i < 8 ==> Number(data, 4 * i) == values[i]
    {
      PackReads(data, 0, Words(values));
      WordsRead(data, 0, values);
    }
    if |data| == 32 {
      var values := seq(8, i requires 0 <= i < 8 => Number(data, 4 * i));
      assert FieldsOk(CHRM, data) <==> Chromatic(values) by { Pairs(data, values); }
      if Chromatic(values) { assert data == Pack(Words(values)); }
      forall other | Chromatic(other) && data == Pack(Words(other)) ensures other == values {
        assert forall i :: 0 <= i < 8 ==> other[i] == values[i];
      }
    }
  }

  lemma Pairs(data: seq<Byte>, values: seq<nat>)
    requires |data| == 32 && |values| == 8 && forall i :: 0 <= i < 8 ==> Number(data, 4 * i) == values[i]
    ensures FieldsOk(CHRM, data) <==> Chromatic(values)
  {
    hide Number;
    assert values[0] == Number(data, 0) && values[1] == Number(data, 4) && values[2] == Number(data, 8) && values[3] == Number(data, 12);
    assert values[4] == Number(data, 16) && values[5] == Number(data, 20) && values[6] == Number(data, 24) && values[7] == Number(data, 28);
    assert 8 * 0 == 0 && 8 * 1 == 8 && 8 * 2 == 16 && 8 * 3 == 24;
    if FieldsOk(CHRM, data) {
      assert forall i :: 0 <= i < 8 ==> Number(data, 4 * i) <= 100_000;
      assert 0 < Number(data, 8 * 0) + Number(data, 8 * 0 + 4) <= 100_000;
      assert 0 < Number(data, 8 * 1) + Number(data, 8 * 1 + 4) <= 100_000;
      assert 0 < Number(data, 8 * 2) + Number(data, 8 * 2 + 4) <= 100_000;
      assert 0 < Number(data, 8 * 3) + Number(data, 8 * 3 + 4) <= 100_000;
    }
    if Chromatic(values) {
      forall i | 0 <= i < 4 ensures 0 < Number(data, 8 * i) + Number(data, 8 * i + 4) <= 100_000 {
        if i == 0 {} else if i == 1 {} else if i == 2 {} else {}
      }
    }
  }

  // ----- densities -----

  /** Pixels per unit along both axes, and whether the unit is the metre. */
  function Physical(x: nat, y: nat, metres: nat): seq<Field> { Words([x, y]) + [Field(metres, 1)] }

  lemma DensityExactly(data: seq<Byte>)
    ensures FieldsOk(PHYS, data) <==>
            exists x: nat, y: nat, metres: nat :: Dense(x) && Dense(y) && metres <= 1 && data == Pack(Physical(x, y, metres))
  {
    hide Number;
    assert data[0..] == data;
    forall x: nat, y: nat, metres: nat | Dense(x) && Dense(y) && metres <= 1
      ensures data == Pack(Physical(x, y, metres)) <==>
              |data| == 9 && Number(data, 0) == x && Number(data, 4) == y && data[8] == metres
    {
      PackReads(data, 0, Physical(x, y, metres));
      PhysicalReads(data, x, y, metres);
    }
    if FieldsOk(PHYS, data) {
      var x, y, metres: nat := Number(data, 0), Number(data, 4), data[8];
      assert Dense(x) && Dense(y) && metres <= 1 && data == Pack(Physical(x, y, metres));
    }
  }

  lemma PhysicalReads(data: seq<Byte>, x: nat, y: nat, metres: nat)
    requires x < 0x1_0000_0000 && y < 0x1_0000_0000 && metres <= 1
    ensures Reads(data, 0, Physical(x, y, metres)) <==>
            |data| == 9 && Number(data, 0) == x && Number(data, 4) == y && data[8] == metres
  {
    hide Number;
    ReadsBoth(data, 0, Words([x, y]), [Field(metres, 1)]);
    assert Words([x, y])[1..] == [Field(y, 4)] && [Field(y, 4)][1..] == [];
    WordsSize([x, y]);
    assert [Field(metres, 1)][1..] == [];
    if |data| == 9 {
      WordsRead(data[..8], 0, [x, y]);
      NumberStays(data, 8, 0);
      NumberStays(data, 8, 4);
      BigOne(data, 8, metres);
      assert [x, y][0] == x && [x, y][1] == y;
    }
  }

  lemma NumberStays(data: seq<Byte>, end: nat, at: nat)
    requires at + 4 <= end <= |data|
    ensures Number(data[..end], at) == Number(data, at)
  {
  }

  lemma {:induction false} WordsSize(values: seq<nat>)
    ensures Size(Words(values)) == 4 * |values|
  {
    if values != [] {
      assert Words(values)[1..] == Words(values[1..]);
      WordsSize(values[1..]);
    }
  }

  // ----- resolutions -----

  /** A TIFF header: byte order, version, where its directory is. */
  const TIFF := [Field(0x4D4D, 2), Field(42, 2), Field(24, 4)]

  /** A directory entry for one rational number. */
  function Entry(tag: nat, offset: nat): seq<Field> { [Field(tag, 2), Field(5, 2), Field(1, 4), Field(offset, 4)] }

  /** Two resolutions and nothing else: the rationals, then a directory of two
      entries, then no further directory. */
  function Resolutions(values: seq<nat>): seq<Field> {
    TIFF + (Words(values) + ([Field(2, 2)] + (Entry(282, 8) + (Entry(283, 16) + [Field(0, 4)]))))
  }

  lemma BigTwo(data: seq<Byte>, at: nat, n: nat)
    requires at + 2 <= |data| && n < 0x1_0000
    ensures data[at..at + 2] == Big(n, 2) <==> Number16(data, at) == n
  {
    Number16Exactly(data, at, n);
  }

  lemma ReadsNext(data: seq<Byte>, at: nat, first: Field, rest: seq<Field>)
    ensures Reads(data, at, [first] + rest) <==>
            && at + first.width <= |data| && data[at..at + first.width] == Big(first.n, first.width)
            && Reads(data, at + first.width, rest)
    ensures Size([first] + rest) == first.width + Size(rest)
  {
    assert ([first] + rest)[1..] == rest;
  }

  lemma EntryReads(data: seq<Byte>, at: nat, tag: nat, offset: nat)
    requires tag < 0x1_0000 && offset < 0x1_0000_0000
    ensures Reads(data, at, Entry(tag, offset)) <==>
            && |data| == at + 12 && Number16(data, at) == tag && Number16(data, at + 2) == 5
            && Number(data, at + 4) == 1 && Number(data, at + 8) == offset
    ensures Size(Entry(tag, offset)) == 12
  {
    hide Number, Number16, Big;
    var e := Entry(tag, offset);
    assert e == [e[0]] + [e[1], e[2], e[3]] && [e[1], e[2], e[3]] == [e[1]] + [e[2], e[3]];
    assert [e[2], e[3]] == [e[2]] + [e[3]] && [e[3]] == [e[3]] + [];
    ReadsNext(data, at, e[0], [e[1], e[2], e[3]]);
    ReadsNext(data, at + 2, e[1], [e[2], e[3]]);
    ReadsNext(data, at + 4, e[2], [e[3]]);
    ReadsNext(data, at + 8, e[3], []);
    if |data| == at + 12 {
      BigTwo(data, at, tag);
      BigTwo(data, at + 2, 5);
      NumberExactly(data, at + 4, 1);
      NumberExactly(data, at + 8, offset);
    }
  }

  lemma EndReads(data: seq<Byte>)
    requires |data| == 54
    ensures Reads(data, 50, [Field(0, 4)]) <==> Number(data, 50) == 0
  {
    hide Number;
    assert [Field(0, 4)][1..] == [];
    NumberExactly(data, 50, 0);
  }

  lemma TiffReads(data: seq<Byte>)
    ensures Reads(data, 0, TIFF) <==> data == [0x4D, 0x4D, 0, 42, 0, 0, 0, 24]
  {
    var e := TIFF;
    assert e[1..] == [e[1], e[2]] && e[1..][1..] == [e[2]] && [e[2]][1..] == [];
    if |data| == 8 {
      BigTwo(data, 0, 0x4D4D);
      BigTwo(data, 2, 42);
      BigFour(24);
      assert data[4..8] == [data[4], data[5], data[6], data[7]];
    }
  }

  lemma CountReads(data: seq<Byte>, at: nat)
    ensures Reads(data, at, [Field(2, 2)]) <==> |data| == at + 2 && data[at..] == [0, 2]
  {
    assert [Field(2, 2)][1..] == [];
    assert Big(2, 2) == [0, 2];
    if |data| == at + 2 { assert data[at..at + 2] == data[at..]; }
  }

  lemma ResolutionsRead(data: seq<Byte>, values: seq<nat>)
    requires |data| == 54 && |values| == 4 && forall i :: 0 <= i < 4 ==> values[i] < 0x1_0000_0000
    ensures Reads(data, 0, Resolutions(values)) <==>
            && data[..8] == [0x4D, 0x4D, 0, 42, 0, 0, 0, 24]
            && Reads(data[..24], 8, Words(values)) && data[24..26] == [0, 2]
            && Reads(data[..38], 26, Entry(282, 8)) && Reads(data[..50], 38, Entry(283, 16)) && Number(data, 50) == 0
  {
    hide Number, Number16, Reads, Size, Words, Entry, Big;
    var d := [Field(0, 4)];
    var c := Entry(283, 16) + d;
    var b := Entry(282, 8) + c;
    var a := [Field(2, 2)] + b;
    Sizes(values);
    ReadsBoth(data, 0, TIFF, Words(values) + a);
    ReadsBoth(data, 8, Words(values), a);
    ReadsBoth(data, 24, [Field(2, 2)], b);
    ReadsBoth(data, 26, Entry(282, 8), c);
    ReadsBoth(data, 38, Entry(283, 16), d);
    TiffReads(data[..8]);
    CountReads(data[..26], 24);
    assert data[..26][24..] == data[24..26];
    EndReads(data);
  }

  lemma Sizes(values: seq<nat>)
    requires |values| == 4
    ensures Size(TIFF) == 8 && Size(Words(values)) == 16 && Size([Field(2, 2)]) == 2
    ensures Size(Entry(282, 8)) == 12 && Size(Entry(283, 16)) == 12
  {
    WordsSize(values);
    assert TIFF[1..] == [Field(42, 2), Field(24, 4)] && TIFF[1..][1..] == [Field(24, 4)] && [Field(24, 4)][1..] == [];
    EntryReads([], 0, 282, 8);
    EntryReads([], 0, 283, 16);
  }

  /** The bytes are exactly those of two resolutions, each numerator and
      denominator within bounds. */
  lemma ResolutionExactly(data: seq<Byte>)
    ensures FieldsOk(EXIF, data) <==>
            exists values :: |values| == 4 && (forall i :: 0 <= i < 4 ==> Dense(values[i])) && data == Pack(Resolutions(values))
  {
    hide Number, Number16, Reads, Pack, Resolutions, Words, Big;
    assert data[0..] == data;
    forall values | |values| == 4 && forall i :: 0 <= i < 4 ==> Dense(values[i])
      ensures data == Pack(Resolutions(values)) ==> |data| == 54
      ensures |data| == 54 ==> (data == Pack(Resolutions(values)) <==>
                                Skeleton(data) && forall i :: 0 <= i < 4 ==> Number(data, 8 + 4 * i) == values[i])
    {
      PackReads(data, 0, Resolutions(values));
      ResolutionsSize(values);
      if |data| == 54 {
        ResolutionsRead(data, values);
        DensitiesRead(data, values);
        SkeletonReads(data);
      }
    }
    if |data| == 54 {
      var values := seq(4, i requires 0 <= i < 4 => Number(data, 8 + 4 * i));
      assert FieldsOk(EXIF, data) <==> Skeleton(data) && forall i :: 0 <= i < 4 ==> Dense(values[i]) by { FieldsSkeleton(data, values); }
      if FieldsOk(EXIF, data) { assert data == Pack(Resolutions(values)); }
      forall other | |other| == 4 && (forall i :: 0 <= i < 4 ==> Dense(other[i])) && data == Pack(Resolutions(other)) ensures other == values {
        assert forall i :: 0 <= i < 4 ==> other[i] == values[i];
      }
    }
  }

  /** All but the four values. */
  predicate Skeleton(data: seq<Byte>)
    requires |data| == 54
  {
    && data[..8] == [0x4D, 0x4D, 0, 42, 0, 0, 0, 24] && data[24..26] == [0, 2]
    && Number16(data, 26) == 282 && Number16(data, 28) == 5 && Number(data, 30) == 1 && Number(data, 34) == 8
    && Number16(data, 38) == 283 && Number16(data, 40) == 5 && Number(data, 42) == 1 && Number(data, 46) == 16
    && Number(data, 50) == 0
  }

  lemma SkeletonReads(data: seq<Byte>)
    requires |data| == 54
    ensures Skeleton(data) <==>
            && data[..8] == [0x4D, 0x4D, 0, 42, 0, 0, 0, 24] && data[24..26] == [0, 2]
            && Reads(data[..38], 26, Entry(282, 8)) && Reads(data[..50], 38, Entry(283, 16)) && Number(data, 50) == 0
  {
    EntryReads(data[..38], 26, 282, 8);
    EntryReads(data[..50], 38, 283, 16);
  }

  lemma DensitiesRead(data: seq<Byte>, values: seq<nat>)
    requires |data| == 54 && |values| == 4 && forall i :: 0 <= i < 4 ==> values[i] < 0x1_0000_0000
    ensures Reads(data[..24], 8, Words(values)) <==> forall i :: 0 <= i < 4 ==> Number(data, 8 + 4 * i) == values[i]
  {
    hide Number;
    WordsRead(data[..24], 8, values);
    forall i | 0 <= i < 4 ensures Number(data[..24], 8 + 4 * i) == Number(data, 8 + 4 * i) { NumberStays(data, 24, 8 + 4 * i); }
  }

  lemma FieldsSkeleton(data: seq<Byte>, values: seq<nat>)
    requires |data| == 54 && |values| == 4 && forall i :: 0 <= i < 4 ==> Number(data, 8 + 4 * i) == values[i]
    ensures FieldsOk(EXIF, data) <==> Skeleton(data) && forall i :: 0 <= i < 4 ==> Dense(values[i])
  {
    hide Number, Number16;
    assert values[0] == Number(data, 8 + 4 * 0) == Number(data, 4 * 2) && values[1] == Number(data, 8 + 4 * 1) == Number(data, 4 * 3);
    assert values[2] == Number(data, 8 + 4 * 2) == Number(data, 4 * 4) && values[3] == Number(data, 8 + 4 * 3) == Number(data, 4 * 5);
  }

  lemma {:induction false} PackSize(fields: seq<Field>)
    ensures |Pack(fields)| == Size(fields)
  {
    if fields != [] { PackSize(fields[1..]); }
  }

  lemma {:induction false} SizeBoth(a: seq<Field>, b: seq<Field>)
    ensures Size(a + b) == Size(a) + Size(b)
  {
    if a == [] {
      assert a + b == b;
    } else {
      assert (a + b)[0] == a[0] && (a + b)[1..] == a[1..] + b;
      SizeBoth(a[1..], b);
    }
  }

  lemma ResolutionsSize(values: seq<nat>)
    requires |values| == 4
    ensures |Pack(Resolutions(values))| == 54
  {
    hide Pack, Size, Words, Entry;
    var d := [Field(0, 4)];
    var c := Entry(283, 16) + d;
    var b := Entry(282, 8) + c;
    var a := [Field(2, 2)] + b;
    Sizes(values);
    PackSize(Resolutions(values));
    SizeBoth(TIFF, Words(values) + a);
    SizeBoth(Words(values), a);
    SizeBoth([Field(2, 2)], b);
    SizeBoth(Entry(282, 8), c);
    SizeBoth(Entry(283, 16), d);
    ReadsNext([], 0, Field(0, 4), []);
    assert [Field(0, 4)] + [] == d;
    EmptySize();
  }

  lemma EmptySize()
    ensures Size([]) == 0
  {
  }

  // ----- the whole file -----

  predicate Checked(c: Chunk, crc: seq<Byte> -> nat) {
    |c.crc| == 4 && crc(c.name + c.data) < 0x1_0000_0000 && c.crc == Big(crc(c.name + c.data), 4)
  }

  lemma CheckedExactly(c: Chunk, crc: seq<Byte> -> nat)
    requires |c.crc| == 4
    ensures CrcOk(c, crc) <==> Checked(c, crc)
  {
    assert c.crc[0..4] == c.crc;
    NumberExactly(c.crc, 0, 0);
    if crc(c.name + c.data) < 0x1_0000_0000 { NumberExactly(c.crc, 0, crc(c.name + c.data)); }
  }

  /** Where a file begins and ends. */
  predicate Framed(content: seq<Byte>, chunks: seq<Chunk>) {
    && content == [0x89] + Ascii("PNG") + [13, 10, 26, 10] + Join(chunks)
    && |chunks| >= 2 && chunks[0].name == Ascii("IHDR")
    && chunks[|chunks| - 1].name == Ascii("IEND") && chunks[|chunks| - 1].data == []
  }

  /** An accepted file begins with the signature and a header, ends with an empty
      end chunk, and carries right checksums. */
  lemma AcceptedFile(content: seq<Byte>, chunks: seq<Chunk>, image: Image, crc: seq<Byte> -> nat, inflate: seq<Byte> -> Option<seq<Byte>>)
    requires |content| >= 8 && Parse(content[8..]) == Some(chunks) && Accepts(content, image, crc, inflate)
    ensures 1 <= image.width <= 8192 && 1 <= image.height <= 8192 && |content| <= 16 * 1024 * 1024
    ensures Framed(content, chunks) && forall k :: 0 <= k < |chunks| ==> Checked(chunks[k], crc)
  {
    hide Number, Compressed, RowSize, FieldsOk, Join, HeaderOk, RowsOk, Parse, KindOf, Ascii, Framed, Checked;
    AcceptedIsGrammar(content, image, crc, inflate);
    GrammarFramed(content, chunks, image);
    forall k | 0 <= k < |chunks| ensures Checked(chunks[k], crc) { CheckedExactly(chunks[k], crc); }
  }

  lemma GrammarFramed(content: seq<Byte>, chunks: seq<Chunk>, image: Image)
    requires Grammar(chunks, image) && content == SIGNATURE + Join(chunks)
    ensures Framed(content, chunks)
  {
    hide Number, RowSize, FieldsOk, Join, HeaderOk, KindOf;
    assert Ascii("PNG") == [0x50, 0x4E, 0x47];
    KindExactly(chunks[0].name, IHDR);
    KindExactly(chunks[|chunks| - 1].name, IEND);
  }

  /** The row begins with a filter byte: none, sub, up, average or Paeth. */
  predicate Filtered(rows: seq<Byte>, size: nat, row: nat) { row * size < |rows| && rows[row * size] in [0, 1, 2, 3, 4] }

  predicate AllFiltered(rows: seq<Byte>, size: nat, height: nat) {
    |rows| == size * height && forall row :: 0 <= row < height ==> Filtered(rows, size, row)
  }

  /** Its header announces the image in one of the two colour types, and its data
      inflate to exactly that many rows of that many samples, each behind a
      filter byte. */
  lemma AcceptedRows(content: seq<Byte>, chunks: seq<Chunk>, image: Image, crc: seq<Byte> -> nat, inflate: seq<Byte> -> Option<seq<Byte>>)
    returns (color: Color)
    requires |content| >= 8 && Parse(content[8..]) == Some(chunks) && Accepts(content, image, crc, inflate)
    ensures |chunks| > 0 && chunks[0].data == Header(image, color) && Small(image, color)
    ensures inflate(Compressed(chunks)).Some?
    ensures AllFiltered(inflate(Compressed(chunks)).value, 1 + image.width * |Samples(color)|, image.height)
  {
    hide Number, Compressed, RowSize, FieldsOk, Join, HeaderOk, Parse, KindOf, Header;
    AcceptedIsGrammar(content, image, crc, inflate);
    HeaderExactly(chunks[0].data, image);
    color :| Small(image, color) && chunks[0].data == Header(image, color);
    var rows, size := inflate(Compressed(chunks)).value, 1 + image.width * |Samples(color)|;
    forall row | 0 <= row < image.height ensures Filtered(rows, size, row) {
      RowInside(size, image.height, row);
      assert RowOk(rows, size, row);
    }
  }
}
