/**
  The KTX version 1 serialiser of `SaveTextureAsKTX`: a 12-byte
  identifier, the endianness word, twelve little-endian `uint32` header
  fields, the `imageSize` word and the texel stream, each value written as
  the two bytes of its half-precision encoding (Khronos KTX File Format
  Specification 1.1, section 2 "File Structure").
*/
module Ktx {

  type Byte = x: int | 0 <= x < 0x100

  /** The two bytes `Half.GetBytes` produces for one value. */
  type HalfBytes = s: seq<Byte> | |s| == 2 witness [0, 0]

  const Identifier: seq<Byte> := [0xAB, 0x4B, 0x54, 0x58, 0x20, 0x31, 0x31, 0xBB, 0x0D, 0x0A, 0x1A, 0x0A]
  const Endianness: seq<Byte> := [0x01, 0x02, 0x03, 0x04]

  const GlHalfFloat: nat := 0x140B
  const GlTypeSize: nat := 2
  const GlRgba: nat := 0x1908
  const GlRgba16F: nat := 0x881A
  /** RGBA: every texel has four channel values. */
  const Channels: nat := 4

  const Two32: nat := 0x1_0000_0000

  /** Length of the header: identifier, endianness, 12 fields and imageSize. */
  const HeaderLength: nat := 68

  // ---------------------------------------------------------------------
  // Unsigned 32-bit words

  /** The unchecked C# conversion of an integer to `UInt32`. */
  function U32(x: int): (r: nat)
    ensures r < Two32
    ensures 0 <= x < Two32 ==> r == x
    ensures (x - r) % Two32 == 0
  {
    x % Two32
  }

  /** `BinaryWriter.Write(UInt32)`: four bytes, least significant first. */
  function Le32(v: nat): (b: seq<Byte>)
    requires v < Two32
    ensures |b| == 4
  {
    [v % 0x100, (v / 0x100) % 0x100, (v / 0x1_0000) % 0x100, v / 0x100_0000]
  }

  /** Reads a little-endian `uint32` at byte offset `at`. */
  function ReadLe32(b: seq<Byte>, at: nat): nat
    requires at + 4 <= |b|
  {
    b[at] as int + 0x100 * (b[at + 1] as int) + 0x1_0000 * (b[at + 2] as int) + 0x100_0000 * (b[at + 3] as int)
  }

  lemma Le32RoundTrip(v: nat)
    requires v < Two32
    ensures ReadLe32(Le32(v), 0) == v
  {
    var q1, q2, q3 := v / 0x100, v / 0x1_0000, v / 0x100_0000;
    assert v == v % 0x100 + 0x100 * q1;
    assert q1 / 0x100 == q2 && q2 / 0x100 == q3;
    assert q1 == q1 % 0x100 + 0x100 * q2;
    assert q2 == q2 % 0x100 + 0x100 * q3;
  }

  /** Concatenated little-endian encodings of a list of words. */
  function Words(vs: seq<nat>): (b: seq<Byte>)
    requires forall i :: 0 <= i < |vs| ==> vs[i] < Two32
    ensures |b| == 4 * |vs|
  {
    if vs == [] then [] else Words(vs[..|vs| - 1]) + Le32(vs[|vs| - 1])
  }

  /** Word number `i` of `Words(vs)` reads back as `vs[i]`. */
  lemma {:induction false} WordsAt(vs: seq<nat>, i: nat)
    requires forall i :: 0 <= i < |vs| ==> vs[i] < Two32
    requires i < |vs|
    ensures ReadLe32(Words(vs), 4 * i) == vs[i]
  {
    var n := |vs| - 1;
    var init := vs[..n];
    assert Words(vs) == Words(init) + Le32(vs[n]);
    if i == n {
      Le32RoundTrip(vs[n]);
      assert Words(vs)[4 * i..4 * i + 4] == Le32(vs[n]);
    } else {
      WordsAt(init, i);
      assert Words(vs)[4 * i..4 * i + 4] == Words(init)[4 * i..4 * i + 4];
    }
  }

  // ---------------------------------------------------------------------
  // Header

  /** Tiling flattens the volume only when it is requested and depth > 1. */
  predicate TileEnabled(tile3D: bool, depth: nat)
  {
    tile3D && depth > 1
  }

  /** The (texWidth, texHeight, texDepth) the serialiser works with. */
  datatype Layout = Layout(width: nat, height: nat, depth: nat)

  function WrittenLayout(width: nat, height: nat, depth: nat, tile3D: bool): (l: Layout)
    ensures l.height == height
    ensures TileEnabled(tile3D, depth) ==> l.width == width * depth && l.depth == 1
    ensures !TileEnabled(tile3D, depth) ==> l.width == width && l.depth == depth
    ensures l.width * l.height * l.depth == width * height * depth
  {
    if TileEnabled(tile3D, depth) then
      assert width * depth * height * 1 == width * height * depth;
      Layout(width * depth, height, 1)
    else Layout(width, height, depth)
  }

  /** The twelve `uint32` header fields of a KTX 1 file, in file order. */
  datatype Header = Header(
    glType: nat, glTypeSize: nat, glFormat: nat, glInternalFormat: nat,
    glBaseInternalFormat: nat, pixelWidth: nat, pixelHeight: nat, pixelDepth: nat,
    numberOfArrayElements: nat, numberOfFaces: nat, numberOfMipmapLevels: nat,
    bytesOfKeyValueData: nat)

  function Fields(h: Header): seq<nat>
  {
    [h.glType, h.glTypeSize, h.glFormat, h.glInternalFormat, h.glBaseInternalFormat,
     h.pixelWidth, h.pixelHeight, h.pixelDepth, h.numberOfArrayElements,
     h.numberOfFaces, h.numberOfMipmapLevels, h.bytesOfKeyValueData]
  }

  predicate WordSized(h: Header)
  {
    forall i :: 0 <= i < |Fields(h)| ==> Fields(h)[i] < Two32
  }

  /** The header `SaveTextureAsKTX` fills in for a width x height x depth texture. */
  function MakeHeader(width: nat, height: nat, depth: nat, tile3D: bool): (h: Header)
    ensures WordSized(h)
    ensures h.glType == 0x140B && h.glTypeSize == 2 && h.glFormat == 0x1908
    ensures h.glInternalFormat == 0x881A && h.glBaseInternalFormat == 0x1908
    ensures h.numberOfArrayElements == 0 && h.numberOfFaces == 1
    ensures h.numberOfMipmapLevels == 1 && h.bytesOfKeyValueData == 0
    ensures h.pixelHeight == U32(height)
    ensures TileEnabled(tile3D, depth) ==> h.pixelWidth == U32(width * depth) && h.pixelDepth == 0
    ensures !TileEnabled(tile3D, depth) ==> h.pixelWidth == U32(width)
    ensures !TileEnabled(tile3D, depth) && depth == 1 ==> h.pixelDepth == 0
    ensures !TileEnabled(tile3D, depth) && depth != 1 ==> h.pixelDepth == U32(depth)
  {
    var l := WrittenLayout(width, height, depth, tile3D);
    Header(GlHalfFloat, GlTypeSize, GlRgba, GlRgba16F, GlRgba,
           U32(l.width), U32(l.height), U32(if l.depth == 1 then 0 else l.depth),
           0, 1, 1, 0)
  }

  /** `imageSize`: bytes of texel data, computed from the rewritten layout. */
  function ImageSize(width: nat, height: nat, depth: nat, tile3D: bool): (r: nat)
    ensures r < Two32
    ensures width * height * depth * 8 < Two32 ==> r == width * height * depth * 8
  {
    var l := WrittenLayout(width, height, depth, tile3D);
    U32(l.width * l.height * l.depth * Channels * GlTypeSize)
  }

  function HeaderBytes(h: Header, imageSize: nat): (b: seq<Byte>)
    requires WordSized(h) && imageSize < Two32
    ensures |b| == HeaderLength
  {
    Identifier + Endianness + Words(Fields(h) + [imageSize])
  }

  /** The header decodes back to its identifier, endianness word and fields. */
  lemma HeaderLayout(h: Header, imageSize: nat)
    requires WordSized(h) && imageSize < Two32
    ensures HeaderBytes(h, imageSize)[..12] == Identifier
    ensures HeaderBytes(h, imageSize)[12..16] == Endianness
    ensures forall f :: 0 <= f < 12 ==> ReadLe32(HeaderBytes(h, imageSize), 16 + 4 * f) == Fields(h)[f]
    ensures ReadLe32(HeaderBytes(h, imageSize), 64) == imageSize
  {
    var b := HeaderBytes(h, imageSize);
    var vs := Fields(h) + [imageSize];
    var w := Words(vs);
    assert b == Identifier + Endianness + w;
    forall f | 0 <= f < 13
      ensures ReadLe32(b, 16 + 4 * f) == vs[f]
    {
      WordsAt(vs, f);
      assert b[16 + 4 * f..20 + 4 * f] == w[4 * f..4 * f + 4];
    }
    assert ReadLe32(b, 16 + 4 * 12) == vs[12];
  }

  // ---------------------------------------------------------------------
  // Texel order

  /** Integer division facts for mixed-radix numbers a*m + b with b < m. */
  lemma MulDivMod(a: nat, b: nat, m: nat)
    requires b < m
    ensures (a * m + b) / m == a && (a * m + b) % m == b
  {
    var x := a * m + b;
    var q, r := x / m, x % m;
    assert x == q * m + r;
    if q > a {
      assert q * m == (q - a) * m + a * m;
      MulAtLeast(q - a, m);
    } else if q < a {
      assert a * m == (a - q) * m + q * m;
      MulAtLeast(a - q, m);
    }
  }

  lemma MulAtLeast(p: nat, m: nat)
    requires p >= 1
    ensures p * m >= m
  {
    assert p * m == (p - 1) * m + m;
  }

  lemma DivBelow(x: nat, m: nat, q: nat)
    requires x < q * m
    ensures 0 < m && x / m < q && x == (x / m) * m + x % m
  {
  }

  lemma MixedRadixBound(a: nat, b: nat, n: nat, m: nat)
    requires a < n && b < m
    ensures a * m + b < n * m
  {
    assert n * m == (n - 1 - a) * m + a * m + m;
  }

  /**
    Source texel (depth-major, row-major) written at output position `n`
    of the tiled (width*depth) x height image: n = j*(W*D) + k*W + i
    carries texel (i, j, k), number k*W*H + j*W + i of the volume.
  */
  function TileSource(w: nat, h: nat, d: nat, n: nat): (s: nat)
    requires 0 < w && 0 < h && 0 < d && n < w * h * d
  {
    var wd := w * d;
    MulPositive(w, d);
    DivModNat(n, wd);
    var j, r := n / wd, n % wd;
    DivModNat(r, w);
    var k, i := r / w, r % w;
    MulNat(k, w * h);
    MulNat(j, w);
    k * (w * h) + j * w + i
  }

  /** The inverse map: where source texel `s` lands in the tiled image. */
  function TileTarget(w: nat, h: nat, d: nat, s: nat): (n: nat)
    requires 0 < w && 0 < h && 0 < d && s < w * h * d
  {
    var wh := w * h;
    MulPositive(w, h);
    DivModNat(s, wh);
    var k, r := s / wh, s % wh;
    DivModNat(r, w);
    var j, i := r / w, r % w;
    MulNat(j, w * d);
    MulNat(k, w);
    j * (w * d) + k * w + i
  }

  lemma VolumeProduct(w: nat, h: nat, d: nat)
    ensures h * (w * d) == w * h * d == d * (w * h)
  {
  }

  lemma MulPositive(a: nat, b: nat)
    requires 0 < a && 0 < b
    ensures 0 < a * b
  {
  }

  lemma DivModNat(x: nat, m: nat)
    requires 0 < m
    ensures 0 <= x / m && 0 <= x % m < m
  {
  }

  lemma MulNat(a: nat, b: nat)
    ensures 0 <= a * b
  {
  }

  /** Position j*(W*D) + k*W + i is in range and carries texel (i, j, k). */
  lemma TileSourceAt(w: nat, h: nat, d: nat, i: nat, j: nat, k: nat)
    requires i < w && j < h && k < d
    ensures j * (w * d) + k * w + i < w * h * d
    ensures k * (w * h) + j * w + i < w * h * d
    ensures TileSource(w, h, d, j * (w * d) + k * w + i) == k * (w * h) + j * w + i
    ensures TileTarget(w, h, d, k * (w * h) + j * w + i) == j * (w * d) + k * w + i
  {
    var wd, wh := w * d, w * h;
    MixedRadixBound(k, i, d, w);
    assert d * w == wd;
    MixedRadixBound(j, k * w + i, h, wd);
    assert h * wd == w * h * d;
    MulDivMod(j, k * w + i, wd);
    MulDivMod(k, i, w);
    MixedRadixBound(j, i, h, w);
    assert h * w == wh;
    MixedRadixBound(k, j * w + i, d, wh);
    assert d * wh == w * h * d;
    MulDivMod(k, j * w + i, wh);
    MulDivMod(j, i, w);
  }

  /** Every position of the volume is one mixed-radix triple (i, j, k). */
  lemma TiledDigits(w: nat, h: nat, d: nat, n: nat) returns (i: nat, j: nat, k: nat)
    requires n < w * h * d
    ensures 0 < w && 0 < h && 0 < d
    ensures i < w && j < h && k < d && n == j * (w * d) + k * w + i
  {
    var wd := w * d;
    assert w * h * d == h * wd;
    MulPositive(w, d);
    j := n / wd;
    k := (n % wd) / w;
    i := (n % wd) % w;
    DivBelow(n, wd, h);
    DivBelow(n % wd, w, d);
  }

  /** Source digits: every texel number is k*(W*H) + j*W + i. */
  lemma SourceDigits(w: nat, h: nat, d: nat, s: nat) returns (i: nat, j: nat, k: nat)
    requires s < w * h * d
    ensures 0 < w && 0 < h && 0 < d
    ensures i < w && j < h && k < d && s == k * (w * h) + j * w + i
  {
    var wh := w * h;
    assert w * h * d == d * wh;
    MulPositive(w, h);
    k := s / wh;
    j := (s % wh) / w;
    i := (s % wh) % w;
    DivBelow(s, wh, d);
    DivBelow(s % wh, w, h);
  }

  /** The tiling permutation is a bijection on [0, W*H*D). */
  lemma TileBijection(w: nat, h: nat, d: nat)
    requires 0 < w && 0 < h && 0 < d
    ensures forall n :: 0 <= n < w * h * d ==>
      TileSource(w, h, d, n) < w * h * d && TileTarget(w, h, d, TileSource(w, h, d, n)) == n
    ensures forall s :: 0 <= s < w * h * d ==>
      TileTarget(w, h, d, s) < w * h * d && TileSource(w, h, d, TileTarget(w, h, d, s)) == s
  {
    forall n | 0 <= n < w * h * d
      ensures TileSource(w, h, d, n) < w * h * d && TileTarget(w, h, d, TileSource(w, h, d, n)) == n
    {
      var i, j, k := TiledDigits(w, h, d, n);
      TileSourceAt(w, h, d, i, j, k);
    }
    forall s | 0 <= s < w * h * d
      ensures TileTarget(w, h, d, s) < w * h * d && TileSource(w, h, d, TileTarget(w, h, d, s)) == s
    {
      var i, j, k := SourceDigits(w, h, d, s);
      TileSourceAt(w, h, d, i, j, k);
    }
  }

  /**
    The volume texels in the order the file stores them: the identity
    order, or the tiled order when tiling is enabled.
  */
  function TexelOrder(w: nat, h: nat, d: nat, tile3D: bool): (o: seq<nat>)
    ensures |o| == w * h * d
    ensures forall n :: 0 <= n < |o| ==> o[n] < w * h * d
  {
    if TileEnabled(tile3D, d) && w * h * d > 0 then
      TileBijection(w, h, d);
      seq(w * h * d, n requires 0 <= n < w * h * d => TileSource(w, h, d, n))
    else
      seq(w * h * d, n => n)
  }

  /** Every texel of the volume is stored exactly once. */
  lemma TexelOrderIsPermutation(w: nat, h: nat, d: nat, tile3D: bool)
    ensures forall n1, n2 :: 0 <= n1 < n2 < w * h * d ==>
      TexelOrder(w, h, d, tile3D)[n1] != TexelOrder(w, h, d, tile3D)[n2]
    ensures forall s :: 0 <= s < w * h * d ==> s in TexelOrder(w, h, d, tile3D)
  {
    var o := TexelOrder(w, h, d, tile3D);
    if TileEnabled(tile3D, d) && w * h * d > 0 {
      TileBijection(w, h, d);
      forall n1, n2 | 0 <= n1 < n2 < w * h * d
        ensures o[n1] != o[n2]
      {
        assert TileTarget(w, h, d, o[n1]) == n1;
        assert TileTarget(w, h, d, o[n2]) == n2;
      }
      forall s | 0 <= s < w * h * d
        ensures s in o
      {
        assert o[TileTarget(w, h, d, s)] == s;
      }
    } else {
      forall s | 0 <= s < w * h * d
        ensures s in o
      {
        assert o[s] == s;
      }
    }
  }

  predicate QuadsInside(data: seq<int>, order: seq<nat>)
  {
    forall n :: 0 <= n < |order| ==> 4 * order[n] + 4 <= |data|
  }

  /** The four channel values of each listed texel, in list order. */
  function Gather(data: seq<int>, order: seq<nat>): (p: seq<int>)
    requires QuadsInside(data, order)
    ensures |p| == 4 * |order|
  {
    if order == [] then []
    else
      var last := order[|order| - 1];
      Gather(data, order[..|order| - 1]) + data[4 * last..4 * last + 4]
  }

  /** Channel c of the n-th listed texel is channel c of source texel order[n]. */
  lemma {:induction false} GatherAt(data: seq<int>, order: seq<nat>, n: nat, c: nat)
    requires QuadsInside(data, order)
    requires n < |order| && c < 4
    ensures Gather(data, order)[4 * n + c] == data[4 * order[n] + c]
  {
    var m := |order| - 1;
    var init := order[..m];
    assert Gather(data, order) == Gather(data, init) + data[4 * order[m]..4 * order[m] + 4];
    if n < m {
      GatherAt(data, init, n, c);
    }
  }

  /** The value stream of the file body. */
  function Payload(w: nat, h: nat, d: nat, data: seq<int>, tile3D: bool): (p: seq<int>)
    requires |data| == w * h * d * 4
    ensures |p| == |data|
  {
    Gather(data, TexelOrder(w, h, d, tile3D))
  }

  /** Untiled, the values follow the order of the read-back data unchanged. */
  lemma PayloadUntiled(w: nat, h: nat, d: nat, data: seq<int>, tile3D: bool)
    requires |data| == w * h * d * 4
    requires !TileEnabled(tile3D, d)
    ensures Payload(w, h, d, data, tile3D) == data
  {
    var p := Payload(w, h, d, data, tile3D);
    forall q | 0 <= q < |data|
      ensures p[q] == data[q]
    {
      GatherAt(data, TexelOrder(w, h, d, tile3D), q / 4, q % 4);
    }
  }

  /** The source's `startIndex`: first channel of texel (i, j, k). */
  function StartIndex(w: nat, h: nat, i: nat, j: nat, k: nat): nat
  {
    k * w * h * 4 + j * w * 4 + i * 4
  }

  lemma StartIndexOfTexel(w: nat, h: nat, i: nat, j: nat, k: nat)
    ensures StartIndex(w, h, i, j, k) == 4 * (k * (w * h) + j * w + i)
  {
  }

  /**
    Tiled position n = j*(W*D) + k*W + i holds source texel (i, j, k),
    whose channels begin at `StartIndex`.
  */
  lemma TiledIndex(w: nat, h: nat, d: nat, i: nat, j: nat, k: nat)
    requires TileEnabled(true, d) && i < w && j < h && k < d
    ensures j * (w * d) + k * w + i < w * h * d
    ensures TexelOrder(w, h, d, true)[j * (w * d) + k * w + i] * 4 == StartIndex(w, h, i, j, k)
  {
    TileSourceAt(w, h, d, i, j, k);
    StartIndexOfTexel(w, h, i, j, k);
  }

  /**
    Tiled, output texel j*(W*D) + k*W + i carries the channels of source
    texel (i, j, k), starting at k*W*H*4 + j*W*4 + i*4.
  */
  lemma PayloadTiledAt(w: nat, h: nat, d: nat, data: seq<int>, i: nat, j: nat, k: nat, c: nat)
    requires |data| == w * h * d * 4
    requires d > 1 && i < w && j < h && k < d && c < 4
    ensures 0 <= 4 * (j * (w * d) + k * w + i) + c < |data|
    ensures StartIndex(w, h, i, j, k) + c < |data|
    ensures Payload(w, h, d, data, true)[4 * (j * (w * d) + k * w + i) + c]
         == data[StartIndex(w, h, i, j, k) + c]
  {
    TiledIndex(w, h, d, i, j, k);
    var order := TexelOrder(w, h, d, true);
    var n: int := j * (w * d) + k * w + i;
    MulNat(j, w * d);
    MulNat(k, w);
    QuadBound(n, w * h * d, c);
    GatherAt(data, order, n, c);
  }

  lemma QuadBound(n: nat, count: nat, c: nat)
    requires n < count && c < 4
    ensures 4 * n + c < count * 4
  {
  }

  /** The bytes `Half.GetBytes` writes for a list of values, in order. */
  function Encoded(vals: seq<int>, half: int -> HalfBytes): (b: seq<Byte>)
    ensures |b| == 2 * |vals|
  {
    if vals == [] then [] else Encoded(vals[..|vals| - 1], half) + half(vals[|vals| - 1])
  }

  lemma {:induction false} EncodedAppend(a: seq<int>, b: seq<int>, half: int -> HalfBytes)
    ensures Encoded(a + b, half) == Encoded(a, half) + Encoded(b, half)
  {
    if b == [] {
      assert a + b == a;
    } else {
      var m := |b| - 1;
      var init := b[..m];
      assert (a + b)[..|a + b| - 1] == a + init;
      assert (a + b)[|a + b| - 1] == b[m];
      assert Encoded(a + b, half) == Encoded(a + init, half) + half(b[m]);
      EncodedAppend(a, init, half);
      assert Encoded(b, half) == Encoded(init, half) + half(b[m]);
    }
  }

  lemma EncodedQuad(a: int, b: int, c: int, d: int, half: int -> HalfBytes)
    ensures Encoded([a, b, c, d], half) == half(a) + half(b) + half(c) + half(d)
  {
    assert Encoded([a], half) == half(a) by { assert [a][..0] == []; }
    assert Encoded([a, b], half) == Encoded([a], half) + half(b) by { assert [a, b][..1] == [a]; }
    assert Encoded([a, b, c], half) == Encoded([a, b], half) + half(c) by { assert [a, b, c][..2] == [a, b]; }
    assert Encoded([a, b, c, d], half) == Encoded([a, b, c], half) + half(d) by { assert [a, b, c, d][..3] == [a, b, c]; }
  }

  /** The whole file `SaveTextureAsKTX` produces for a read-back texture. */
  function KtxFile(w: nat, h: nat, d: nat, data: seq<int>, tile3D: bool, half: int -> HalfBytes): (r: seq<Byte>)
    requires |data| == w * h * d * 4
    ensures |r| == HeaderLength + 2 * |data|
  {
    HeaderBytes(MakeHeader(w, h, d, tile3D), ImageSize(w, h, d, tile3D))
      + Encoded(Payload(w, h, d, data, tile3D), half)
  }

  /**
    `imageSize` equals the number of bytes that follow the header, tiled or
    not, whenever the payload fits the 32-bit field.
  */
  lemma ImageSizeCountsPayload(w: nat, h: nat, d: nat, data: seq<int>, tile3D: bool, half: int -> HalfBytes)
    requires |data| == w * h * d * 4
    requires w * h * d * 8 < Two32
    ensures |KtxFile(w, h, d, data, tile3D, half)| == HeaderLength + w * h * d * 8
    ensures ReadLe32(KtxFile(w, h, d, data, tile3D, half), 64) == w * h * d * 8
  {
    var hd := MakeHeader(w, h, d, tile3D);
    var size := ImageSize(w, h, d, tile3D);
    HeaderLayout(hd, size);
    var f := KtxFile(w, h, d, data, tile3D, half);
    assert f[64..68] == HeaderBytes(hd, size)[64..68];
  }

  /**
    `SaveTextureAsKTX` without the file: the header words, then the texel
    stream, written value by value with the same loops as the source.
  */
  method SaveTextureAsKtx(w: nat, h: nat, d: nat, data: seq<int>, tile3D: bool, half: int -> HalfBytes)
    returns (bytes: seq<Byte>)
    requires |data| == w * h * d * 4
    ensures bytes == KtxFile(w, h, d, data, tile3D, half)
  {
    var header := HeaderBytes(MakeHeader(w, h, d, tile3D), ImageSize(w, h, d, tile3D));
    var texels;
    if TileEnabled(tile3D, d) {
      texels := WriteTiled(w, h, d, data, half);
    } else {
      PayloadUntiled(w, h, d, data, tile3D);
      texels := WriteInOrder(data, half);
    }
    bytes := header + texels;
  }

  /** The tiled branch: rows j, then slices k, then columns i. */
  method WriteTiled(w: nat, h: nat, d: nat, data: seq<int>, half: int -> HalfBytes)
    returns (bytes: seq<Byte>)
    requires |data| == w * h * d * 4 && TileEnabled(true, d)
    ensures bytes == Encoded(Payload(w, h, d, data, true), half)
  {
    bytes := [];
    ghost var p := Payload(w, h, d, data, true);
    ghost var n: nat := 0;  // texels written so far: j*(w*d)
    var j := 0;
    while j < h
      invariant 0 <= j <= h
      invariant n == j * (w * d) && 4 * n <= |p|
      invariant bytes == Encoded(p[..4 * n], half)
    {
      RowBound(w, h, d, j);
      bytes := WriteRow(w, h, d, data, half, j, p, n, bytes);
      n := n + w * d;
      j := j + 1;
    }
    VolumeProduct(w, h, d);
    assert p[..4 * n] == p;
  }

  /** Row j of the tiled image: its D slices side by side, each W texels wide. */
  method WriteRow(w: nat, h: nat, d: nat, data: seq<int>, half: int -> HalfBytes, j: nat,
                  ghost p: seq<int>, ghost n: nat, bytes0: seq<Byte>)
    returns (bytes: seq<Byte>)
    requires |data| == w * h * d * 4 && TileEnabled(true, d) && j < h
    requires p == Payload(w, h, d, data, true)
    requires n == j * (w * d) && 4 * n <= 4 * (n + w * d) <= |p|
    requires bytes0 == Encoded(p[..4 * n], half)
    ensures bytes == Encoded(p[..4 * (n + w * d)], half)
  {
    bytes := bytes0;
    ghost var m: nat := n;
    var k := 0;
    while k < d
      invariant 0 <= k <= d
      invariant m == n + k * w && 4 * m <= |p|
      invariant bytes == Encoded(p[..4 * m], half)
    {
      SliceBound(w, d, k);
      bytes := WriteColumns(w, h, d, data, half, j, k, p, m, bytes);
      var next := k + 1;
      NextMultiple(k, next, w);
      m := m + w;
      k := next;
    }
    assert m == n + w * d by { MulCommute(d, w); }
  }

  /** Slice k of row j: the W texels (0, j, k) .. (W-1, j, k). */
  method WriteColumns(w: nat, h: nat, d: nat, data: seq<int>, half: int -> HalfBytes, j: nat, k: nat,
                      ghost p: seq<int>, ghost n: nat, bytes0: seq<Byte>)
    returns (bytes: seq<Byte>)
    requires |data| == w * h * d * 4 && TileEnabled(true, d) && j < h && k < d
    requires p == Payload(w, h, d, data, true)
    requires n == j * (w * d) + k * w && 4 * (n + w) <= |p|
    requires bytes0 == Encoded(p[..4 * n], half)
    ensures bytes == Encoded(p[..4 * (n + w)], half)
  {
    bytes := bytes0;
    ghost var m: nat := n;
    var i := 0;
    while i < w
      invariant 0 <= i <= w
      invariant m == n + i && 4 * m <= |p|
      invariant bytes == Encoded(p[..4 * m], half)
    {
      var startIndex := StartIndex(w, h, i, j, k);
      TiledWrite(w, h, d, data, half, i, j, k, p, m, startIndex);
      bytes := bytes + half(data[startIndex]) + half(data[startIndex + 1])
                     + half(data[startIndex + 2]) + half(data[startIndex + 3]);
      i := i + 1;
      m := m + 1;
    }
  }

  /** One step of the tiled loop appends the four values of source texel (i, j, k). */
  lemma TiledWrite(w: nat, h: nat, d: nat, data: seq<int>, half: int -> HalfBytes, i: nat, j: nat, k: nat,
                   p: seq<int>, n: nat, s: nat)
    requires |data| == w * h * d * 4 && d > 1 && i < w && j < h && k < d
    requires p == Payload(w, h, d, data, true)
    requires n == j * (w * d) + k * w + i && s == StartIndex(w, h, i, j, k)
    ensures 4 * n + 4 <= |p| && s + 4 <= |data|
    ensures Encoded(p[..4 * n + 4], half)
         == Encoded(p[..4 * n], half) + half(data[s]) + half(data[s + 1]) + half(data[s + 2]) + half(data[s + 3])
  {
    PayloadTiledAt(w, h, d, data, i, j, k, 0);
    PayloadTiledAt(w, h, d, data, i, j, k, 1);
    PayloadTiledAt(w, h, d, data, i, j, k, 2);
    PayloadTiledAt(w, h, d, data, i, j, k, 3);
    QuadPrefix(p, 4 * n, data, s);
    EncodedQuadAppend(p[..4 * n], data, s, half);
  }

  lemma QuadPrefix(p: seq<int>, m: nat, data: seq<int>, s: nat)
    requires m + 4 <= |p| && s + 4 <= |data|
    requires p[m] == data[s] && p[m + 1] == data[s + 1] && p[m + 2] == data[s + 2] && p[m + 3] == data[s + 3]
    ensures p[..m + 4] == p[..m] + data[s..s + 4]
  {
  }

  lemma RowBound(w: nat, h: nat, d: nat, j: nat)
    requires j < h
    ensures j * (w * d) + w * d == (j + 1) * (w * d) <= w * h * d
    ensures 4 * (j * (w * d) + w * d) <= w * h * d * 4
  {
    VolumeProduct(w, h, d);
    MulLe(j + 1, h, w * d);
  }

  lemma SliceBound(w: nat, d: nat, k: nat)
    requires k < d
    ensures k * w + w <= w * d
  {
    MulLe(k + 1, d, w);
  }

  lemma NextMultiple(k: nat, next: nat, w: nat)
    requires next == k + 1
    ensures k * w + w == next * w
  {
  }

  lemma MulCommute(a: nat, b: nat)
    ensures a * b == b * a
  {
  }

  lemma MulLe(a: nat, b: nat, c: nat)
    requires a <= b
    ensures a * c <= b * c
  {
  }

  /** The untiled branch: every read-back value in order. */
  method WriteInOrder(data: seq<int>, half: int -> HalfBytes) returns (bytes: seq<Byte>)
    ensures bytes == Encoded(data, half)
  {
    bytes := [];
    var i := 0;
    while i < |data|
      invariant 0 <= i <= |data|
      invariant bytes == Encoded(data[..i], half)
    {
      assert data[..i + 1] == data[..i] + [data[i]];
      EncodedAppend(data[..i], [data[i]], half);
      bytes := bytes + half(data[i]);
      i := i + 1;
    }
    assert data[..|data|] == data;
  }

  lemma EncodedQuadAppend(g: seq<int>, data: seq<int>, start: nat, half: int -> HalfBytes)
    requires start + 4 <= |data|
    ensures Encoded(g + data[start..start + 4], half)
         == Encoded(g, half)
            + half(data[start]) + half(data[start + 1]) + half(data[start + 2]) + half(data[start + 3])
  {
    var quad := data[start..start + 4];
    EncodedAppend(g, quad, half);
    assert quad == [data[start], data[start + 1], data[start + 2], data[start + 3]];
    EncodedQuad(data[start], data[start + 1], data[start + 2], data[start + 3], half);
  }
}
