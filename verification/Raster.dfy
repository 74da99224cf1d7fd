/**
  The raster path of image printing: a pixel grid becomes ESC/POS raster bands (GS v 0), one
  bit per pixel, eight pixels per byte, in bands of limited height.
 */
module Raster {
  import opened Wrappers
  import opened Bytes

  type Octet = bv8

  newtype Word = x: int | 0 <= x < 0x1_0000

  datatype Rgb8 = Rgb8(r: byte, g: byte, b: byte)
  datatype Rgb16 = Rgb16(r: Word, g: Word, b: Word)

  /** An RGBA buffer of 8-bit channels, or any other image seen through its 16-bit colours. */
  datatype Image =
    | Rgba(width: nat, shallow: seq<seq<Rgb8>>)
    | Other(width: nat, deep: seq<seq<Rgb16>>)

  predicate WellFormed(img: Image) {
    match img
    case Rgba(w, rows) => forall y :: 0 <= y < |rows| ==> |rows[y]| == w
    case Other(w, rows) => forall y :: 0 <= y < |rows| ==> |rows[y]| == w
  }

  function Height(img: Image): nat { if img.Rgba? then |img.shallow| else |img.deep| }

  // ------------------------------------------------------------ luma

  const THRESHOLD: int := 180

  /** The fast path on 8-bit channels. */
  function Luma8(p: Rgb8): int { (299 * p.r as int + 587 * p.g as int + 114 * p.b as int) / 1000 }

  /** grayscale; it fits the uint8 it is stored in, and the sum fits uint32. */
  function Grayscale(p: Rgb16): (luma: int)
    ensures 0 <= luma < 256
    ensures 299 * p.r as int + 587 * p.g as int + 114 * p.b as int < 0x1_0000_0000
  {
    (299 * p.r as int + 587 * p.g as int + 114 * p.b as int) / (1000 * 257)
  }

  /** What color.RGBA reports for an opaque 8-bit pixel: each channel c becomes 257 c. */
  function Widened(p: Rgb8): Rgb16 {
    Rgb16((p.r as int * 257) as Word, (p.g as int * 257) as Word, (p.b as int * 257) as Word)
  }

  /** Both paths give the same luma, and it fits the uint8 it is stored in, as the sums fit uint32. */
  lemma FastPathAgrees(p: Rgb8)
    ensures Luma8(p) == Grayscale(Widened(p))
    ensures 0 <= Luma8(p) < 256
  {
    var s := 299 * p.r as int + 587 * p.g as int + 114 * p.b as int;
    assert 299 * (p.r as int * 257) + 587 * (p.g as int * 257) + 114 * (p.b as int * 257) == 257 * s;
  }

  predicate Dark(img: Image, x: int, y: int)
    requires WellFormed(img) && 0 <= x < img.width && 0 <= y < Height(img)
  {
    match img
    case Rgba(_, rows) => Luma8(rows[y][x]) < THRESHOLD
    case Other(_, rows) => Grayscale(rows[y][x]) < THRESHOLD
  }

  // ------------------------------------------------------------ bits

  function Mask(k: int): Octet
    requires 0 <= k < 8
  {
    (0x80 as bv8) >> k
  }

  predicate Bit(v: Octet, k: int)
    requires 0 <= k < 8
  {
    v & Mask(k) != 0
  }

  function MaskValue(k: int): Octet
    requires 0 <= k < 8
  {
    if k == 0 then 0x80 else if k == 1 then 0x40 else if k == 2 then 0x20 else if k == 3 then 0x10
    else if k == 4 then 0x08 else if k == 5 then 0x04 else if k == 6 then 0x02 else 0x01
  }

  lemma MaskIs(k: int)
    requires 0 <= k < 8
    ensures Mask(k) == MaskValue(k)
  {}

  lemma SetBit(v: Octet, m: int, k: int)
    requires 0 <= m < 8 && 0 <= k < 8
    ensures Bit(v | Mask(m), k) <==> m == k || Bit(v, k)
  {
    MaskIs(m);
    MaskIs(k);
  }

  // ------------------------------------------------------------ rows

  function RowWidth(img: Image): nat { (img.width + 7) / 8 }

  predicate Ink(img: Image, x: int, y: int)
    requires WellFormed(img) && 0 <= x && 0 <= y < Height(img)
  {
    x < img.width && Dark(img, x, y)
  }

  /** Byte j of row y with the ink of its first n pixels. */
  function Partly(img: Image, y: int, j: nat, n: int): Octet
    requires WellFormed(img) && 0 <= y < Height(img) && 0 <= n <= 8
  {
    if n == 0 then 0
    else if Ink(img, 8 * j + n - 1, y) then Partly(img, y, j, n - 1) | Mask(n - 1)
    else Partly(img, y, j, n - 1)
  }

  function Clamp(n: int): int { if n < 0 then 0 else if n > 8 then 8 else n }

  /** The first n bytes of row y. */
  function RowUpTo(img: Image, y: int, n: nat): (r: seq<Octet>)
    requires WellFormed(img) && 0 <= y < Height(img)
    ensures |r| == n
  {
    if n == 0 then [] else RowUpTo(img, y, n - 1) + [Partly(img, y, n - 1, 8)]
  }

  /** Rows y0 to y1, one after the other. */
  function Rows(img: Image, y0: nat, y1: nat): seq<Octet>
    requires WellFormed(img) && y0 <= y1 <= Height(img)
    decreases y1
  {
    if y0 == y1 then [] else Rows(img, y0, y1 - 1) + RowUpTo(img, y1 - 1, RowWidth(img))
  }

  lemma {:induction false} PartlyBits(img: Image, y: int, j: nat, n: int, k: int)
    requires WellFormed(img) && 0 <= y < Height(img) && 0 <= n <= 8 && 0 <= k < 8
    ensures Bit(Partly(img, y, j, n), k) <==> k < n && Ink(img, 8 * j + k, y)
    decreases n
  {
    if n > 0 {
      PartlyBits(img, y, j, n - 1, k);
      SetBit(Partly(img, y, j, n - 1), n - 1, k);
    }
  }

  lemma {:induction false} RowUpToAt(img: Image, y: int, n: nat, j: nat)
    requires WellFormed(img) && 0 <= y < Height(img) && j < n
    ensures RowUpTo(img, y, n)[j] == Partly(img, y, j, 8)
    decreases n
  {
    if j < n - 1 {
      RowUpToAt(img, y, n - 1, j);
    }
  }

  /** Pixels past the width of the image add no ink. */
  lemma {:induction false} PaddingIsBlank(img: Image, y: int, j: nat, n: int, m: int)
    requires WellFormed(img) && 0 <= y < Height(img) && 0 <= n <= m <= 8 && img.width <= 8 * j + n
    ensures Partly(img, y, j, m) == Partly(img, y, j, n)
    decreases m
  {
    if n < m {
      PaddingIsBlank(img, y, j, n, m - 1);
    }
  }

  // ------------------------------------------------------------ bands

  /** byte(n): the low eight bits. */
  function U8(n: nat): Octet { CountUp(n % 256) }

  /** The octet n steps above zero. */
  function CountUp(n: nat): Octet
    requires n < 256
  {
    if n == 0 then 0 else CountUp(n - 1) + 1
  }

  /** GS v 0 with the row width and the height as 16-bit numbers, low byte first; both are cut to 16 bits. */
  function Header(rowBytes: nat, height: nat): seq<Octet> {
    [0x1d, 0x76, 0x30, 0x00, U8(rowBytes), U8(rowBytes / 256), U8(height), U8(height / 256)]
  }

  function BandHeight(img: Image, y: nat, slice: nat): nat
    requires y <= Height(img)
  {
    if y + slice > Height(img) then Height(img) - y else slice
  }

  /** The bands from row y on. */
  function Bands(img: Image, y: nat, slice: nat): seq<Octet>
    requires WellFormed(img) && 0 < slice
    decreases Height(img) - y
  {
    if y >= Height(img) then []
    else BandAt(img, y, slice) + Bands(img, y + slice, slice)
  }

  function BandAt(img: Image, y: nat, slice: nat): seq<Octet>
    requires WellFormed(img) && y <= Height(img)
  {
    Header(RowWidth(img), BandHeight(img, y, slice)) + Rows(img, y, y + BandHeight(img, y, slice))
  }

  const INITIALIZE: seq<Octet> := [0x1b, 0x40]
  const DEFAULT_SLICE: nat := 256

  function SliceOf(sliceHeight: int): nat { if sliceHeight <= 0 then DEFAULT_SLICE else sliceHeight }

  /** The size the JPEG header declares. */
  datatype Declared = Declared(width: int, height: int)

  predicate Empty(d: Declared) { d.width <= 0 || d.height <= 0 }

  /** None is the dimension error; it looks at the declared size, not at the grid that scaling leaves. */
  function Encoded(d: Declared, img: Image, sliceHeight: int): Option<seq<Octet>>
    requires WellFormed(img)
  {
    if Empty(d) then None else Some(INITIALIZE + Bands(img, 0, SliceOf(sliceHeight)))
  }

  // ------------------------------------------------------------ packing

  /** Byte j of row y with the ink of the row's first x pixels. */
  function Painted(img: Image, y: int, j: nat, x: int): Octet
    requires WellFormed(img) && 0 <= y < Height(img)
  {
    Partly(img, y, j, Clamp(x - 8 * j))
  }

  /** One more pixel changes one byte, by one bit. */
  lemma PaintOne(img: Image, y: int, x: int)
    requires WellFormed(img) && 0 <= y < Height(img) && 0 <= x < img.width
    ensures forall j: nat :: j != x / 8 ==> Painted(img, y, j, x + 1) == Painted(img, y, j, x)
    ensures Painted(img, y, x / 8, x + 1)
            == if Dark(img, x, y) then Painted(img, y, x / 8, x) | Mask(x % 8) else Painted(img, y, x / 8, x)
  {}

  lemma NothingPainted(img: Image, y: int)
    requires WellFormed(img) && 0 <= y < Height(img)
    ensures forall j: nat :: Painted(img, y, j, 0) == 0
  {}

  /** One row into its place in the band, which is still blank. */
  method PackRow(img: Image, y: nat, band: array<Octet>, offset: nat)
    requires WellFormed(img) && y < Height(img) && offset + RowWidth(img) <= band.Length
    requires forall i :: offset <= i < offset + RowWidth(img) ==> band[i] == 0
    modifies band
    ensures band[offset..offset + RowWidth(img)] == RowUpTo(img, y, RowWidth(img))
    ensures forall i :: 0 <= i < offset || offset + RowWidth(img) <= i < band.Length ==> band[i] == old(band[i])
  {
    NothingPainted(img, y);
    var x := 0;
    while x < img.width
      invariant 0 <= x <= img.width
      invariant forall j :: 0 <= j < RowWidth(img) ==> band[offset + j] == Painted(img, y, j, x)
      invariant forall i :: 0 <= i < offset || offset + RowWidth(img) <= i < band.Length ==> band[i] == old(band[i])
    {
      PaintOne(img, y, x);
      assert x / 8 < RowWidth(img) && band[offset + x / 8] == Painted(img, y, x / 8, x);
      if Dark(img, x, y) {
        band[offset + x / 8] := band[offset + x / 8] | Mask(x % 8);
      }
      ghost var next := x + 1;
      forall j | 0 <= j < RowWidth(img)
        ensures band[offset + j] == Painted(img, y, j, next)
      {
        assert j != x / 8 ==> Painted(img, y, j, next) == Painted(img, y, j, x);
      }
      x := x + 1;
    }
    RowIsDone(img, y, band[offset..offset + RowWidth(img)]);
  }

  lemma RowIsDone(img: Image, y: nat, row: seq<Octet>)
    requires WellFormed(img) && y < Height(img) && |row| == RowWidth(img)
    requires forall j :: 0 <= j < |row| ==> row[j] == Painted(img, y, j, img.width)
    ensures row == RowUpTo(img, y, RowWidth(img))
  {
    forall j | 0 <= j < RowWidth(img)
      ensures row[j] == RowUpTo(img, y, RowWidth(img))[j]
    {
      if Clamp(img.width - 8 * j) < 8 {
        PaddingIsBlank(img, y, j, Clamp(img.width - 8 * j), 8);
      }
      RowUpToAt(img, y, RowWidth(img), j);
    }
  }

  lemma {:induction false} RowsLength(img: Image, y0: nat, y1: nat)
    requires WellFormed(img) && y0 <= y1 <= Height(img)
    ensures |Rows(img, y0, y1)| == Times(y1 - y0, RowWidth(img))
    decreases y1
  {
    if y0 < y1 {
      RowsLength(img, y0, y1 - 1);
      TimesStep(y1 - y0 - 1, RowWidth(img));
    }
  }

  function Times(a: nat, b: nat): nat { a * b }

  lemma TimesStep(a: nat, b: nat)
    ensures Times(a + 1, b) == Times(a, b) + b
  {
    assert (a + 1) * b == a * b + b;
  }

  lemma TimesGrows(a: nat, c: nat, b: nat)
    requires a < c
    ensures Times(a, b) + b <= Times(c, b)
  {
    assert c * b == a * b + (c - a) * b;
    assert (c - a) * b >= b by { assert (c - a) * b == b + (c - a - 1) * b; }
  }

  method PackBand(img: Image, yStart: nat, height: nat) returns (raster: seq<Octet>)
    requires WellFormed(img) && yStart + height <= Height(img)
    ensures raster == Rows(img, yStart, yStart + height)
  {
    var band := new Octet[Times(height, RowWidth(img))](_ => 0);
    var line, offset := 0, 0;
    while line < height
      invariant 0 <= line <= height && offset == Times(line, RowWidth(img)) <= band.Length
      invariant band[..offset] == Rows(img, yStart, yStart + line)
      invariant forall i :: offset <= i < band.Length ==> band[i] == 0
    {
      TimesGrows(line, height, RowWidth(img));
      TimesStep(line, RowWidth(img));
      ghost var done := band[..offset];
      PackRow(img, yStart + line, band, offset);
      assert band[..offset] == done;
      assert band[..offset + RowWidth(img)] == band[..offset] + band[offset..offset + RowWidth(img)];
      line, offset := line + 1, offset + RowWidth(img);
    }
    return band[..offset];
  }

  /** jpegToESCPOS, given the declared size and the decoded and scaled pixel grid. */
  method ToEscPos(d: Declared, img: Image, sliceHeight: int) returns (out: Option<seq<Octet>>)
    requires WellFormed(img)
    ensures out == Encoded(d, img, sliceHeight)
  {
    if Empty(d) {
      return None;
    }
    var bands := EmitBands(img, SliceOf(sliceHeight));
    return Some(INITIALIZE + bands);
  }

  method EmitBands(img: Image, slice: nat) returns (bytes: seq<Octet>)
    requires WellFormed(img) && 0 < slice
    ensures bytes == Bands(img, 0, slice)
  {
    bytes := [];
    var yStart := 0;
    ghost var all := Bands(img, 0, slice);
    assert bytes + all == all;
    while yStart < Height(img)
      invariant 0 <= yStart
      invariant bytes + Bands(img, yStart, slice) == all
      decreases Height(img) - yStart
    {
      BandsNext(img, yStart, slice, bytes);
      var band := EmitBand(img, yStart, slice);
      bytes := bytes + band;
      yStart := yStart + slice;
    }
    assert bytes + [] == bytes;
  }

  method EmitBand(img: Image, yStart: nat, slice: nat) returns (band: seq<Octet>)
    requires WellFormed(img) && yStart < Height(img)
    ensures band == BandAt(img, yStart, slice)
  {
    var bandHeight := BandHeight(img, yStart, slice);
    var raster := PackBand(img, yStart, bandHeight);
    return Header(RowWidth(img), bandHeight) + raster;
  }

  lemma BandsNext(img: Image, y: nat, slice: nat, before: seq<Octet>)
    requires WellFormed(img) && 0 < slice && y < Height(img)
    ensures before + Bands(img, y, slice) == before + BandAt(img, y, slice) + Bands(img, y + slice, slice)
  {
    Reassociate(before, BandAt(img, y, slice), Bands(img, y + slice, slice));
  }

  lemma Reassociate(a: seq<Octet>, b: seq<Octet>, c: seq<Octet>)
    ensures a + b + c == a + (b + c)
  {}

  // ------------------------------------------------------------ the printer's side

  /** One raster image as the printer takes it: rows of rowBytes bytes each. */
  datatype Band = Band(rowBytes: nat, height: nat, data: seq<Octet>)

  function U16Of(lo: Octet, hi: Octet): nat { lo as int + 256 * (hi as int) }

  /** Reads raster commands until the input ends; None if it is anything else. */
  function ReadBands(s: seq<Octet>): Option<seq<Band>>
    decreases |s|
  {
    if s == [] then Some([])
    else if |s| < 8 || s[..4] != [0x1d, 0x76, 0x30, 0x00] then None
    else if |s| < 8 + BodyLength(s) then None
    else if ReadBands(s[8 + BodyLength(s)..]) == None then None
    else Some([Band(U16Of(s[4], s[5]), U16Of(s[6], s[7]), s[8..8 + BodyLength(s)])]
         + ReadBands(s[8 + BodyLength(s)..]).value)
  }

  function BodyLength(s: seq<Octet>): nat
    requires |s| >= 8
  {
    Times(U16Of(s[6], s[7]), U16Of(s[4], s[5]))
  }

  function Read(s: seq<Octet>): Option<seq<Band>> {
    if INITIALIZE <= s then ReadBands(s[2..]) else None
  }

  /** The dot of one band. */
  predicate BandDot(b: Band, x: nat, y: nat) {
    && x < 8 * b.rowBytes && Times(y, b.rowBytes) + x / 8 < |b.data|
    && Bit(b.data[Times(y, b.rowBytes) + x / 8], x % 8)
  }

  /** The dot at column x of line y of the bands put below each other. */
  predicate Dot(bands: seq<Band>, x: nat, y: nat)
    decreases |bands|
  {
    if bands == [] then false
    else if y < bands[0].height then BandDot(bands[0], x, y)
    else Dot(bands[1..], x, y - bands[0].height)
  }

  function TotalHeight(bands: seq<Band>): nat
    decreases |bands|
  {
    if bands == [] then 0 else bands[0].height + TotalHeight(bands[1..])
  }

  // ------------------------------------------------------------ reading back

  lemma U16RoundTrip(n: nat)
    ensures U16Of(U8(n), U8(n / 256)) == n <==> n < 0x1_0000
  {
    OctetRoundTrip(n % 256);
    OctetRoundTrip(n / 256 % 256);
    TwoDigits(n);
  }

  lemma TwoDigits(n: nat)
    ensures n % 256 + 256 * (n / 256 % 256) == n <==> n < 0x1_0000
  {}

  lemma {:induction false} OctetRoundTrip(n: nat)
    requires n < 256
    ensures CountUp(n) as int == n
  {
    if n > 0 {
      OctetRoundTrip(n - 1);
      OneMore(CountUp(n - 1));
    }
  }

  lemma OneMore(v: Octet)
    requires v != 255
    ensures (v + 1) as int == v as int + 1
  {}

  /** The bands an image is cut into. */
  function BandsOf(img: Image, y: nat, slice: nat): seq<Band>
    requires WellFormed(img) && 0 < slice
    decreases Height(img) - y
  {
    if y >= Height(img) then []
    else [Band(RowWidth(img), BandHeight(img, y, slice), Rows(img, y, y + BandHeight(img, y, slice)))]
         + BandsOf(img, y + slice, slice)
  }

  /** The numbers in the headers fit 16 bits; a JPEG has at most 65535 rows and columns. */
  predicate Fits(img: Image) { img.width < 0x1_0000 && Height(img) < 0x1_0000 }

  lemma ReadOneBand(rowBytes: nat, height: nat, body: seq<Octet>, rest: seq<Octet>)
    requires rowBytes < 0x1_0000 && height < 0x1_0000 && |body| == Times(height, rowBytes)
    ensures ReadBands(Header(rowBytes, height) + body + rest)
            == if ReadBands(rest) == None then None else Some([Band(rowBytes, height, body)] + ReadBands(rest).value)
  {
    var s := Header(rowBytes, height) + body + rest;
    U16RoundTrip(rowBytes);
    U16RoundTrip(height);
    assert s[..4] == [0x1d, 0x76, 0x30, 0x00];
    assert BodyLength(s) == |body|;
    assert s[8..8 + |body|] == body && s[8 + |body|..] == rest;
  }

  lemma ReadNextBand(img: Image, y: nat, slice: nat, rest: seq<Octet>, bands: seq<Band>)
    requires WellFormed(img) && Fits(img) && 0 < slice && y < Height(img) && ReadBands(rest) == Some(bands)
    ensures ReadBands(BandAt(img, y, slice) + rest)
            == Some([Band(RowWidth(img), BandHeight(img, y, slice), Rows(img, y, y + BandHeight(img, y, slice)))]
                    + bands)
  {
    RowsLength(img, y, y + BandHeight(img, y, slice));
    ReadGivenBand(BandAt(img, y, slice) + rest, RowWidth(img), BandHeight(img, y, slice),
                  Rows(img, y, y + BandHeight(img, y, slice)), rest, bands);
  }

  lemma ReadGivenBand(s: seq<Octet>, rowBytes: nat, height: nat, body: seq<Octet>, rest: seq<Octet>, bands: seq<Band>)
    requires rowBytes < 0x1_0000 && height < 0x1_0000 && |body| == Times(height, rowBytes)
    requires s == Header(rowBytes, height) + body + rest && ReadBands(rest) == Some(bands)
    ensures ReadBands(s) == Some([Band(rowBytes, height, body)] + bands)
  {
    ReadOneBand(rowBytes, height, body, rest);
  }

  lemma {:induction false} ReadAllBands(img: Image, y: nat, slice: nat)
    requires WellFormed(img) && Fits(img) && 0 < slice
    ensures ReadBands(Bands(img, y, slice)) == Some(BandsOf(img, y, slice))
    decreases Height(img) - y
  {
    if y < Height(img) {
      ReadAllBands(img, y + slice, slice);
      ReadNextBand(img, y, slice, Bands(img, y + slice, slice), BandsOf(img, y + slice, slice));
    }
  }

  lemma RowsGrow(img: Image, y0: nat, y1: nat, k: nat)
    requires WellFormed(img) && y0 <= y1 < Height(img) && k < |Rows(img, y0, y1)|
    ensures k < |Rows(img, y0, y1 + 1)| && Rows(img, y0, y1 + 1)[k] == Rows(img, y0, y1)[k]
  {}

  lemma LastRowAt(img: Image, y0: nat, y: nat, j: nat)
    requires WellFormed(img) && y0 <= y < Height(img) && j < RowWidth(img)
    ensures |Rows(img, y0, y)| + j < |Rows(img, y0, y + 1)|
    ensures Rows(img, y0, y + 1)[|Rows(img, y0, y)| + j] == Partly(img, y, j, 8)
  {
    RowUpToAt(img, y, RowWidth(img), j);
  }

  /** Row y begins where the rows above it end. */
  lemma {:induction false} RowsAfter(img: Image, y0: nat, y1: nat, y: nat, j: nat)
    requires WellFormed(img) && y0 <= y < y1 <= Height(img) && j < RowWidth(img)
    ensures |Rows(img, y0, y)| + j < |Rows(img, y0, y1)|
    ensures Rows(img, y0, y1)[|Rows(img, y0, y)| + j] == Partly(img, y, j, 8)
    decreases y1
  {
    if y < y1 - 1 {
      RowsAfter(img, y0, y1 - 1, y, j);
      RowsGrow(img, y0, y1 - 1, |Rows(img, y0, y)| + j);
    } else {
      LastRowAt(img, y0, y, j);
    }
  }

  lemma RowsAt(img: Image, y0: nat, y1: nat, y: nat, j: nat)
    requires WellFormed(img) && y0 <= y < y1 <= Height(img) && j < RowWidth(img)
    ensures Times(y - y0, RowWidth(img)) + j < |Rows(img, y0, y1)|
    ensures Rows(img, y0, y1)[Times(y - y0, RowWidth(img)) + j] == Partly(img, y, j, 8)
  {
    RowsLength(img, y0, y);
    RowsAfter(img, y0, y1, y, j);
  }

  function NthBand(img: Image, y0: nat, n: nat): Band
    requires WellFormed(img) && y0 + n <= Height(img)
  {
    Band(RowWidth(img), n, Rows(img, y0, y0 + n))
  }

  lemma DotInBand(img: Image, y0: nat, n: nat, x: nat, y: nat)
    requires WellFormed(img) && y0 <= y < y0 + n <= Height(img)
    ensures BandDot(NthBand(img, y0, n), x, y - y0) <==> Ink(img, x, y)
  {
    if x < 8 * RowWidth(img) {
      RowsAt(img, y0, y0 + n, y, x / 8);
      PartlyBits(img, y, x / 8, 8, x % 8);
    }
  }

  lemma DotOfFirst(b: Band, rest: seq<Band>, x: nat, y: nat)
    ensures Dot([b] + rest, x, y) <==> if y < b.height then BandDot(b, x, y) else Dot(rest, x, y - b.height)
  {
    assert ([b] + rest)[0] == b && ([b] + rest)[1..] == rest;
  }

  lemma {:induction false} DotsOfBands(img: Image, y0: nat, slice: nat, x: nat, y: nat)
    requires WellFormed(img) && 0 < slice && y0 <= y < Height(img)
    ensures Dot(BandsOf(img, y0, slice), x, y - y0) <==> x < img.width && Dark(img, x, y)
    decreases Height(img) - y0
  {
    var n := BandHeight(img, y0, slice);
    var first := NthBand(img, y0, n);
    assert BandsOf(img, y0, slice) == [first] + BandsOf(img, y0 + slice, slice);
    DotOfFirst(first, BandsOf(img, y0 + slice, slice), x, y - y0);
    if y < y0 + n {
      DotInBand(img, y0, n, x, y);
    } else {
      DotsOfBands(img, y0 + slice, slice, x, y);
    }
  }

  lemma {:induction false} HeightsAddUp(img: Image, y: nat, slice: nat)
    requires WellFormed(img) && 0 < slice && y <= Height(img)
    ensures TotalHeight(BandsOf(img, y, slice)) == Height(img) - y
    ensures forall k :: 0 <= k < |BandsOf(img, y, slice)| ==>
              BandsOf(img, y, slice)[k].rowBytes == RowWidth(img) && BandsOf(img, y, slice)[k].height <= slice
    decreases Height(img) - y
  {
    if y < Height(img) {
      assert BandsOf(img, y, slice)[1..] == BandsOf(img, y + slice, slice);
      if y + slice <= Height(img) { HeightsAddUp(img, y + slice, slice); }
    }
  }

  lemma {:induction false} NothingBelow(bands: seq<Band>, x: nat, y: nat)
    requires TotalHeight(bands) <= y
    ensures !Dot(bands, x, y)
    decreases |bands|
  {
    if bands != [] {
      NothingBelow(bands[1..], x, y - bands[0].height);
    }
  }

  lemma ReadEncoded(d: Declared, img: Image, sliceHeight: int)
    requires WellFormed(img) && Fits(img) && !Empty(d)
    ensures Encoded(d, img, sliceHeight).Some?
    ensures Read(Encoded(d, img, sliceHeight).value) == Some(BandsOf(img, 0, SliceOf(sliceHeight)))
  {
    var s := Encoded(d, img, sliceHeight).value;
    assert s[2..] == Bands(img, 0, SliceOf(sliceHeight)) && s[..2] == INITIALIZE;
    ReadAllBands(img, 0, SliceOf(sliceHeight));
  }

  /**
    Round trip: what the printer reads off the encoded image is the image.  The bands have the
    image's row width and together its height, every dot is the pixel's luma test, and every
    padding dot right of the image is blank.
   */
  lemma RasterRoundTrip(d: Declared, img: Image, sliceHeight: int, x: nat, y: nat)
    requires WellFormed(img) && Fits(img) && !Empty(d)
    ensures Encoded(d, img, sliceHeight).Some? && Read(Encoded(d, img, sliceHeight).value).Some?
    ensures TotalHeight(Read(Encoded(d, img, sliceHeight).value).value) == Height(img)
    ensures forall k :: 0 <= k < |Read(Encoded(d, img, sliceHeight).value).value| ==>
              Read(Encoded(d, img, sliceHeight).value).value[k].rowBytes == RowWidth(img)
              && Read(Encoded(d, img, sliceHeight).value).value[k].height <= SliceOf(sliceHeight)
    ensures Dot(Read(Encoded(d, img, sliceHeight).value).value, x, y)
            <==> x < img.width && y < Height(img) && Dark(img, x, y)
  {
    ReadEncoded(d, img, sliceHeight);
    HeightsAddUp(img, 0, SliceOf(sliceHeight));
    if y < Height(img) {
      DotsOfBands(img, 0, SliceOf(sliceHeight), x, y);
    } else {
      NothingBelow(BandsOf(img, 0, SliceOf(sliceHeight)), x, y);
    }
  }
}
