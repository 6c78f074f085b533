/** The placeholder image serialiser (worker/src/worker/services/media.py):
    `_crc` and `build_placeholder_png`, which writes the PNG signature and
    an IHDR, an IDAT and an IEND chunk (sections 5.2, 5.3 and 11.2 of the
    W3C PNG Specification, Second Edition). zlib compression, CRC-32 and the
    seeded random colour draws are parameters. */
module Png {
  import opened Wrappers

  newtype byte = x: int | 0 <= x < 256

  const TwoTo32: int := 0x1_0000_0000

  /** The 8-byte PNG signature 89 50 4E 47 0D 0A 1A 0A. */
  const Signature: seq<byte> := [0x89, 0x50, 0x4E, 0x47, 0x0D, 0x0A, 0x1A, 0x0A]

  const IHDR: seq<byte> := [0x49, 0x48, 0x44, 0x52]
  const IDAT: seq<byte> := [0x49, 0x44, 0x41, 0x54]
  const IEND: seq<byte> := [0x49, 0x45, 0x4E, 0x44]

  /** `struct.pack(">I", n)`: four bytes, most significant first. */
  function U32(n: int): (r: seq<byte>)
    requires 0 <= n < TwoTo32
    ensures |r| == 4
  {
    var q1 := n / 0x100;
    var q2 := q1 / 0x100;
    var q3 := q2 / 0x100;
    [q3 as byte, (q2 % 0x100) as byte, (q1 % 0x100) as byte, (n % 0x100) as byte]
  }

  /** Reading four big-endian bytes back as a number. */
  function ReadU32(s: seq<byte>): (n: int)
    requires |s| == 4
    ensures 0 <= n < TwoTo32
  {
    ((s[0] as int * 0x100 + s[1] as int) * 0x100 + s[2] as int) * 0x100 + s[3] as int
  }

  /** Packing then reading gives the number back. */
  lemma ReadPacked(n: int)
    requires 0 <= n < TwoTo32
    ensures ReadU32(U32(n)) == n
  {
    var q1 := n / 0x100;
    var q2 := q1 / 0x100;
    var q3 := q2 / 0x100;
    assert n == q1 * 0x100 + n % 0x100;
    assert q1 == q2 * 0x100 + q1 % 0x100;
    assert q2 == q3 * 0x100 + q2 % 0x100;
  }

  /** `_crc(chunk_type, data)`: CRC-32 over type and data, masked to 32 bits
      and packed big-endian. `crc32` stands for `binascii.crc32`. */
  function Crc(crc32: seq<byte> -> int, chunkType: seq<byte>, data: seq<byte>): (r: seq<byte>)
    ensures |r| == 4 && ReadU32(r) == crc32(chunkType + data) % TwoTo32
  {
    var n := crc32(chunkType + data) % TwoTo32;
    ReadPacked(n);
    U32(n)
  }

  /** A chunk as the serialiser writes it. */
  datatype Chunk = Chunk(kind: seq<byte>, data: seq<byte>, crc: seq<byte>)

  predicate WellFormed(c: Chunk)
  {
    |c.kind| == 4 && |c.data| < TwoTo32 && |c.crc| == 4
  }

  /** Length, type, data, CRC (section 5.3 of the PNG Specification). */
  function ChunkBytes(c: Chunk): (r: seq<byte>)
    requires WellFormed(c)
    ensures |r| == 12 + |c.data|
  {
    U32(|c.data|) + c.kind + c.data + c.crc
  }

  function AllWellFormed(cs: seq<Chunk>): bool
  {
    forall i :: 0 <= i < |cs| ==> WellFormed(cs[i])
  }

  function SerializeChunks(cs: seq<Chunk>): seq<byte>
    requires AllWellFormed(cs)
  {
    if cs == [] then [] else ChunkBytes(cs[0]) + SerializeChunks(cs[1..])
  }

  /** A reader of the chunk sequence: each chunk's length field says how many
      data bytes follow its type. */
  function ParseChunks(s: seq<byte>): (r: Option<seq<Chunk>>)
    ensures r.Some? ==> AllWellFormed(r.value)
    decreases |s|
  {
    if s == [] then Some([])
    else if |s| < 12 then None
    else
      var n := ReadU32(s[..4]);
      if |s| < 12 + n then None
      else
        var c := Chunk(s[4..8], s[8..8 + n], s[8 + n..12 + n]);
        match ParseChunks(s[12 + n..])
        case None => None
        case Some(rest) => Some([c] + rest)
  }

  /** Reading the serialised chunks gives the chunks back. */
  lemma {:induction false} ParseSerialized(cs: seq<Chunk>)
    requires AllWellFormed(cs)
    ensures ParseChunks(SerializeChunks(cs)) == Some(cs)
    decreases |cs|
  {
    if cs != [] {
      var c := cs[0];
      var s := SerializeChunks(cs);
      var n := |c.data|;
      assert s == U32(n) + c.kind + c.data + c.crc + SerializeChunks(cs[1..]);
      assert s[..4] == U32(n);
      ReadPacked(n);
      assert s[4..8] == c.kind && s[8..8 + n] == c.data && s[8 + n..12 + n] == c.crc;
      assert s[12 + n..] == SerializeChunks(cs[1..]);
      ParseSerialized(cs[1..]);
      assert [c] + cs[1..] == cs;
    }
  }

  /** `random.randint(40, 215)` as a function of the generator's draw. */
  function Component(draw: nat): (c: byte)
    ensures 40 <= c as int <= 215
  {
    (40 + draw % 176) as byte
  }

  /** Python's `s * n`: `n` copies, none when `n` is not positive. */
  function Repeat(s: seq<byte>, n: int): (r: seq<byte>)
    ensures |r| == (if n <= 0 then 0 else n * |s|)
    decreases n
  {
    if n <= 0 then [] else s + Repeat(s, n - 1)
  }

  /** The uncompressed image data as written: `height` copies of the row
      `[0, r, g, b] * width`. */
  function Raw(width: int, height: int, r: byte, g: byte, b: byte): (raw: seq<byte>)
    ensures width >= 0 && height >= 0 ==> |raw| == 4 * width * height
  {
    Repeat(Repeat([0, r, g, b], width), height)
  }

  /** IHDR data: width, height, bit depth 8, colour type 2 (truecolour),
      compression, filter and interlace method 0 (section 11.2.2 of the PNG
      Specification). */
  function HeaderData(width: int, height: int): (h: seq<byte>)
    requires 0 <= width < TwoTo32 && 0 <= height < TwoTo32
    ensures |h| == 13 && ReadU32(h[..4]) == width && ReadU32(h[4..8]) == height
    ensures h[8..] == [8, 2, 0, 0, 0]
  {
    ReadPacked(width);
    ReadPacked(height);
    assert (U32(width) + U32(height) + [8, 2, 0, 0, 0])[..4] == U32(width);
    assert (U32(width) + U32(height) + [8, 2, 0, 0, 0])[4..8] == U32(height);
    U32(width) + U32(height) + [8, 2, 0, 0, 0]
  }

  /** `struct.error`: a width, height or data length outside 0..2^32-1. */
  datatype PngError = StructError

  /** The three chunks `build_placeholder_png` writes, in order. */
  function PngChunks(width: int, height: int, compressed: seq<byte>, crc32: seq<byte> -> int): (cs: seq<Chunk>)
    requires 0 <= width < TwoTo32 && 0 <= height < TwoTo32 && |compressed| < TwoTo32
    ensures |cs| == 3 && AllWellFormed(cs)
    ensures cs[0].kind == IHDR && cs[1].kind == IDAT && cs[2].kind == IEND
    ensures cs[0].data == HeaderData(width, height) && cs[1].data == compressed && cs[2].data == []
  {
    var h := HeaderData(width, height);
    [Chunk(IHDR, h, Crc(crc32, IHDR, h)), Chunk(IDAT, compressed, Crc(crc32, IDAT, compressed)),
     Chunk(IEND, [], Crc(crc32, IEND, []))]
  }

  /** `build_placeholder_png(prompt, width, height)` given the three colour
      draws, zlib and CRC-32: struct.error when a dimension or the
      compressed length does not fit an unsigned 32-bit field, otherwise
      bytes that start with the PNG signature. */
  function PlaceholderPng(width: int, height: int, draws: (nat, nat, nat),
                          compress: seq<byte> -> seq<byte>, crc32: seq<byte> -> int): (r: Result<seq<byte>, PngError>)
    ensures r.Err? ==> r.error == StructError
    ensures r.Ok? <==> (0 <= width < TwoTo32 && 0 <= height < TwoTo32
      && |compress(Raw(width, height, Component(draws.0), Component(draws.1), Component(draws.2)))| < TwoTo32)
    ensures r.Ok? ==> |r.value| > 8 && r.value[..8] == Signature
  {
    var compressed := compress(Raw(width, height, Component(draws.0), Component(draws.1), Component(draws.2)));
    if !(0 <= width < TwoTo32 && 0 <= height < TwoTo32) || |compressed| >= TwoTo32 then Err(StructError)
    else Ok(Signature + SerializeChunks(PngChunks(width, height, compressed, crc32)))
  }

  /** The output is the signature followed by exactly the chunks IHDR, IDAT
      and IEND, as a reader of the chunk sequence sees them; IHDR carries
      the width and height; IDAT the compressed image data. */
  lemma PlaceholderLayout(width: int, height: int, draws: (nat, nat, nat),
                          compress: seq<byte> -> seq<byte>, crc32: seq<byte> -> int)
    requires PlaceholderPng(width, height, draws, compress, crc32).Ok?
    ensures var out := PlaceholderPng(width, height, draws, compress, crc32).value;
      var compressed := compress(Raw(width, height, Component(draws.0), Component(draws.1), Component(draws.2)));
      && out[..8] == Signature
      && ParseChunks(out[8..]) == Some(PngChunks(width, height, compressed, crc32))
  {
    var compressed := compress(Raw(width, height, Component(draws.0), Component(draws.1), Component(draws.2)));
    var cs := PngChunks(width, height, compressed, crc32);
    var out := Signature + SerializeChunks(cs);
    assert out[8..] == SerializeChunks(cs);
    ParseSerialized(cs);
  }

  /** The serialiser as written: the parts appended to a list, then
      joined. */
  method BuildPlaceholderPng(width: int, height: int, draws: (nat, nat, nat),
                             compress: seq<byte> -> seq<byte>, crc32: seq<byte> -> int) returns (r: Result<seq<byte>, PngError>)
    ensures r == PlaceholderPng(width, height, draws, compress, crc32)
  {
    var red, green, blue := Component(draws.0), Component(draws.1), Component(draws.2);
    var row := Repeat([0, red, green, blue], width);
    var raw := Repeat(row, height);
    var compressed := compress(raw);
    if !(0 <= width < TwoTo32 && 0 <= height < TwoTo32) {
      return Err(StructError);
    }
    var png: seq<seq<byte>> := [Signature];
    var ihdr := HeaderData(width, height);
    var headerParts := [U32(|ihdr|), IHDR, ihdr, Crc(crc32, IHDR, ihdr)];
    png := png + headerParts;
    if |compressed| >= TwoTo32 {
      return Err(StructError);
    }
    var dataParts := [U32(|compressed|), IDAT, compressed, Crc(crc32, IDAT, compressed)];
    png := png + dataParts;
    var endParts := [U32(0), IEND, Crc(crc32, IEND, [])];
    png := png + endParts;
    PartsJoin(width, height, compressed, crc32);
    r := Ok(Flatten(png));
  }

  /** The parts the serialiser appends join to the signature and the three
      serialised chunks. */
  lemma PartsJoin(width: int, height: int, compressed: seq<byte>, crc32: seq<byte> -> int)
    requires 0 <= width < TwoTo32 && 0 <= height < TwoTo32 && |compressed| < TwoTo32
    ensures var ihdr := HeaderData(width, height);
      Flatten([Signature] + [U32(|ihdr|), IHDR, ihdr, Crc(crc32, IHDR, ihdr)]
              + [U32(|compressed|), IDAT, compressed, Crc(crc32, IDAT, compressed)]
              + [U32(0), IEND, Crc(crc32, IEND, [])])
      == Signature + SerializeChunks(PngChunks(width, height, compressed, crc32))
  {
    var ihdr := HeaderData(width, height);
    var headerParts := [U32(|ihdr|), IHDR, ihdr, Crc(crc32, IHDR, ihdr)];
    var dataParts := [U32(|compressed|), IDAT, compressed, Crc(crc32, IDAT, compressed)];
    var endParts := [U32(0), IEND, Crc(crc32, IEND, [])];
    var cs := PngChunks(width, height, compressed, crc32);
    FlattenAppend([Signature] + headerParts + dataParts, endParts);
    FlattenAppend([Signature] + headerParts, dataParts);
    FlattenAppend([Signature], headerParts);
    FlattenChunk(cs[0]);
    FlattenChunk(cs[1]);
    FlattenChunk(cs[2]);
    SerializeThree(cs);
    FlattenCons(Signature, []);
  }

  /** `b"".join(parts)` */
  function Flatten(parts: seq<seq<byte>>): seq<byte>
  {
    if parts == [] then [] else parts[0] + Flatten(parts[1..])
  }

  lemma {:induction false} FlattenAppend(a: seq<seq<byte>>, b: seq<seq<byte>>)
    ensures Flatten(a + b) == Flatten(a) + Flatten(b)
    decreases |a|
  {
    if a == [] {
      assert a + b == b;
    } else {
      assert (a + b)[1..] == a[1..] + b;
      FlattenAppend(a[1..], b);
    }
  }

  lemma FlattenCons(x: seq<byte>, rest: seq<seq<byte>>)
    ensures Flatten([x] + rest) == x + Flatten(rest)
  {
    assert ([x] + rest)[1..] == rest;
  }

  /** The four parts of a chunk join to the serialised chunk; IEND's three
      (no data) likewise. */
  lemma FlattenChunk(c: Chunk)
    requires WellFormed(c)
    ensures Flatten([U32(|c.data|), c.kind, c.data, c.crc]) == ChunkBytes(c)
    ensures c.data == [] ==> Flatten([U32(0), c.kind, c.crc]) == ChunkBytes(c)
  {
    FlattenCons(c.crc, []);
    FlattenCons(c.data, [c.crc]);
    FlattenCons(c.kind, [c.data, c.crc]);
    FlattenCons(U32(|c.data|), [c.kind, c.data, c.crc]);
    assert [U32(|c.data|)] + [c.kind, c.data, c.crc] == [U32(|c.data|), c.kind, c.data, c.crc];
    FlattenCons(c.kind, [c.crc]);
    FlattenCons(U32(0), [c.kind, c.crc]);
    assert [U32(0)] + [c.kind, c.crc] == [U32(0), c.kind, c.crc];
  }

  lemma SerializeThree(cs: seq<Chunk>)
    requires |cs| == 3 && AllWellFormed(cs)
    ensures SerializeChunks(cs) == ChunkBytes(cs[0]) + ChunkBytes(cs[1]) + ChunkBytes(cs[2])
  {
    assert cs[1..][0] == cs[1] && cs[1..][1..] == cs[2..];
    assert cs[2..][0] == cs[2] && cs[2..][1..] == [];
    assert SerializeChunks(cs[2..]) == ChunkBytes(cs[2]);
  }

  /** The data a decoder expects for 8-bit truecolour without interlacing:
      each of `height` scanlines is a filter-type byte followed by three
      bytes per pixel (sections 7.2 and 7.3 of the PNG Specification). */
  function ExpectedDataSize(width: nat, height: nat): nat
  {
    height * (1 + 3 * width)
  }

  /** As written the rows carry a zero before every pixel, four bytes per
      pixel, so for any width of two or more the image data is longer than
      the header announces and the file is not a valid PNG. */
  lemma RawSizeMismatch(width: nat, height: nat, r: byte, g: byte, b: byte)
    requires width >= 2 && height >= 1
    ensures |Raw(width, height, r, g, b)| == ExpectedDataSize(width, height) + height * (width - 1)
    ensures |Raw(width, height, r, g, b)| != ExpectedDataSize(width, height)
  {
    assert 4 * width * height == height * (1 + 3 * width) + height * (width - 1);
    assert height * (width - 1) > 0;
  }

  /** The default 256 by 256 placeholder carries 65280 bytes of image data
      more than its header calls for. */
  lemma DefaultSizeMismatch()
    ensures |Raw(256, 256, 40, 40, 40)| == 262144 && ExpectedDataSize(256, 256) == 196864
  {
  }

  /** The evidently intended image data: each scanline is filter type 0
      followed by the pixel triplet `width` times. */
  function CorrectedRaw(width: int, height: int, r: byte, g: byte, b: byte): seq<byte>
  {
    Repeat([0] + Repeat([r, g, b], width), height)
  }

  /** The corrected data has exactly the size a decoder expects. */
  lemma CorrectedRawSize(width: nat, height: nat, r: byte, g: byte, b: byte)
    ensures |CorrectedRaw(width, height, r, g, b)| == ExpectedDataSize(width, height)
  {
  }

  /** In the corrected data, scanline `row` starts with filter type 0 and
      its pixel `x` is the colour triplet. */
  lemma CorrectedPixel(width: nat, height: nat, r: byte, g: byte, b: byte, row: nat, x: nat)
    requires row < height && x < width
    ensures var s := CorrectedRaw(width, height, r, g, b);
      var at := row * (1 + 3 * width);
      at + 3 * x + 3 < |s| && s[at] == 0 && s[at + 1 + 3 * x..at + 4 + 3 * x] == [r, g, b]
  {
    var line := [0] + Repeat([r, g, b], width);
    assert |line| == 1 + 3 * width;
    RepeatIndex(line, height, row);
    PixelInLine(CorrectedRaw(width, height, r, g, b), row * |line|, width, r, g, b, x);
  }

  /** Within a copy of the scanline at offset `at`, pixel `x` follows the
      filter byte. */
  lemma PixelInLine(s: seq<byte>, at: nat, width: nat, r: byte, g: byte, b: byte, x: nat)
    requires x < width
    requires var line := [0] + Repeat([r, g, b], width);
      at + |line| <= |s| && s[at..at + |line|] == line
    ensures at + 3 * x + 3 < |s| && s[at] == 0 && s[at + 1 + 3 * x..at + 4 + 3 * x] == [r, g, b]
  {
    var pixels := Repeat([r, g, b], width);
    var line := [0] + pixels;
    RepeatIndex([r, g, b], width, x);
    var p := 3 * x;
    assert x * 3 == p;
    assert line[1 + p..4 + p] == pixels[p..p + 3] == [r, g, b];
    SubSlice(s, at, line, 1 + p, 4 + p);
    assert s[at] == s[at..at + |line|][0] == line[0] == 0;
  }

  /** A slice of a copy of `t` inside `s` is the same slice of `t`. */
  lemma SubSlice(s: seq<byte>, at: nat, t: seq<byte>, i: nat, j: nat)
    requires at + |t| <= |s| && s[at..at + |t|] == t && i <= j <= |t|
    ensures s[at + i..at + j] == t[i..j]
  {
    assert forall k :: at + i <= k < at + j ==> s[k] == s[at..at + |t|][k - at];
  }

  /** Copy `k` of `s` within `Repeat(s, n)` sits at offset `k * |s|`. */
  lemma {:induction false} RepeatIndex(s: seq<byte>, n: int, k: int)
    requires 0 <= k < n
    ensures k * |s| + |s| <= |Repeat(s, n)| && Repeat(s, n)[k * |s|..k * |s| + |s|] == s
    decreases n
  {
    if k > 0 {
      RepeatIndex(s, n - 1, k - 1);
      var rest := Repeat(s, n - 1);
      assert Repeat(s, n) == s + rest;
      assert (k - 1) * |s| + |s| == k * |s|;
      assert Repeat(s, n)[k * |s|..k * |s| + |s|] == rest[(k - 1) * |s|..(k - 1) * |s| + |s|];
    }
  }
}
