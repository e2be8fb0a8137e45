/**
 The pixels of the QR scanner, after src/camera/qr_decoder.c: which crop of a frame is kept, how its
 rows are copied into the snapshot, and how the snapshot is turned into the gray image.
 */
module QrFrame {
  import opened Bytes

  const INT_MAX := 0x7fff_ffff
  const SIZE_MAX := 0xffff_ffff

  datatype PixelFormat = Rgb565X | Rgb565 | OtherFormat

  datatype Format = Format(pixels: PixelFormat, width: word, height: word, pitch: word, size: word)

  /** Where row n of a picture starts. */
  function Flat(n: nat, pitch: nat): nat {
    if n == 0 then 0 else Flat(n - 1, pitch) + pitch
  }

  lemma {:induction false} FlatIsProduct(n: nat, pitch: nat)
    ensures Flat(n, pitch) == n * pitch
  {
    if n > 0 {
      FlatIsProduct(n - 1, pitch);
      assert n * pitch == (n - 1) * pitch + pitch;
    }
  }

  lemma {:induction false} FlatGrows(a: nat, b: nat, pitch: nat)
    requires a <= b
    ensures Flat(a, pitch) <= Flat(b, pitch)
  {
    if a < b { FlatGrows(a, b - 1, pitch); }
  }

  lemma {:induction false} FlatWidens(n: nat, pitch: nat, wider: nat)
    requires pitch <= wider
    ensures Flat(n, pitch) <= Flat(n, wider)
  {
    if n > 0 { FlatWidens(n - 1, pitch, wider); }
  }

  lemma {:induction false} FlatDoubles(n: nat, width: nat)
    ensures Flat(n, 2 * width) == 2 * Flat(n, width)
  {
    if n > 0 { FlatDoubles(n - 1, width); }
  }

  lemma {:induction false} FlatAdds(a: nat, b: nat, pitch: nat)
    ensures Flat(a + b, pitch) == Flat(a, pitch) + Flat(b, pitch)
  {
    if b > 0 { FlatAdds(a, b - 1, pitch); }
  }

  /** The part of a length that is kept: three quarters, rounded up, from the middle. */
  function Kept(n: nat): nat { n - n / 4 }
  function Margin(n: nat): nat { (n - Kept(n)) / 2 }

  /** The formats app_qr_decoder_init takes. */
  predicate Supported(f: Format) {
    && f.pixels != OtherFormat
    && 0 < f.width <= INT_MAX && 0 < f.height <= INT_MAX
    && f.pitch / 2 >= f.width
    && f.height <= SIZE_MAX / f.width && f.height <= SIZE_MAX / f.pitch
    && f.size >= Flat(f.height, f.pitch)
  }

  /** What the rest needs of a format. */
  predicate Usable(f: Format) {
    0 < f.width && 0 < f.height && 2 * f.width <= f.pitch
  }

  lemma SupportedIsUsable(f: Format)
    requires Supported(f)
    ensures Usable(f)
  {
  }

  function SnapshotPitch(f: Format): nat { 2 * Kept(f.width) }

  /** The crop is never empty and lies inside, centred to within a pixel. */
  lemma CropIsCentred(n: nat)
    requires n > 0
    ensures Kept(n) >= 1 && Margin(n) + Kept(n) <= n
    ensures var after := n - Margin(n) - Kept(n); Margin(n) <= after <= Margin(n) + 1
  {
  }

  /** The later size tests of the initialisation cannot fail. */
  lemma SnapshotSizeFits(f: Format)
    requires Supported(f)
    ensures f.pitch * f.height <= SIZE_MAX
    ensures SnapshotPitch(f) * Kept(f.height) <= f.pitch * f.height
    ensures Kept(f.height) <= SIZE_MAX / SnapshotPitch(f)
  {
    var d, h := f.pitch, f.height;
    FlatIsProduct(h, d);
    FlatIsProduct(Kept(h), SnapshotPitch(f));
    FlatWidens(Kept(h), SnapshotPitch(f), d);
    FlatGrows(Kept(h), h, d);
    FlatIsProduct(SIZE_MAX / d, d);
    FlatGrows(h, SIZE_MAX / d, d);
    DivTimes(SIZE_MAX, d);
    DivAtLeast(SIZE_MAX, SnapshotPitch(f), Kept(h));
  }

  lemma DivTimes(n: nat, d: nat)
    requires d > 0
    ensures d * (n / d) <= n
  {
  }

  lemma DivAtLeast(n: nat, d: nat, q: nat)
    requires d > 0 && d * q <= n
    ensures q <= n / d
  {
    var k := n / d;
    assert n < d * k + d;
    FlatIsProduct(k + 1, d);
    FlatIsProduct(q, d);
    if q > k { FlatGrows(k + 1, q, d); }
  }

  // -------------------------------------------------------------------------------- rows

  function Row(source: seq<byte>, at: nat, count: nat): (r: seq<byte>)
    ensures |r| == count
  {
    if at + count <= |source| then source[at..at + count] else Zeros(count)
  }

  /** n rows of `count` bytes each, `stride` apart in a picture, one after the other. */
  function Strided(source: seq<byte>, start: nat, stride: nat, count: nat, n: nat): seq<byte> {
    if n == 0 then []
    else Strided(source, start, stride, count, n - 1) + Row(source, start + Flat(n - 1, stride), count)
  }

  lemma {:induction false} StridedLength(source: seq<byte>, start: nat, stride: nat, count: nat, n: nat)
    ensures |Strided(source, start, stride, count, n)| == Flat(n, count)
  {
    if n > 0 { StridedLength(source, start, stride, count, n - 1); }
  }

  lemma StridedStep(source: seq<byte>, start: nat, stride: nat, count: nat, y: nat)
    ensures Flat(y + 1, count) == Flat(y, count) + count
    ensures Strided(source, start, stride, count, y + 1)
         == Strided(source, start, stride, count, y) + Row(source, start + Flat(y, stride), count)
  {
  }

  lemma StridedLast(source: seq<byte>, start: nat, stride: nat, count: nat, y: nat, i: nat)
    requires i < count && start + Flat(y, stride) + count <= |source|
    ensures Flat(y, count) + i < |Strided(source, start, stride, count, y + 1)|
    ensures Strided(source, start, stride, count, y + 1)[Flat(y, count) + i] == source[start + Flat(y, stride) + i]
  {
    var front, row := StridedParts(source, start, stride, count, y);
    assert row[i] == source[start + Flat(y, stride) + i];
    assert (front + row)[|front| + i] == row[i];
  }

  /** The rows before the last, and the last. */
  lemma StridedParts(source: seq<byte>, start: nat, stride: nat, count: nat, y: nat)
    returns (front: seq<byte>, row: seq<byte>)
    ensures Strided(source, start, stride, count, y + 1) == front + row && |front| == Flat(y, count)
    ensures row == Row(source, start + Flat(y, stride), count)
  {
    front, row := Strided(source, start, stride, count, y), Row(source, start + Flat(y, stride), count);
    StridedLength(source, start, stride, count, y);
  }

  /** The first rows of a longer list are the shorter list. */
  lemma {:induction false} StridedPrefix(source: seq<byte>, start: nat, stride: nat, count: nat, m: nat, n: nat, k: nat)
    requires m <= n && k < |Strided(source, start, stride, count, m)|
    ensures k < |Strided(source, start, stride, count, n)|
    ensures Strided(source, start, stride, count, n)[k] == Strided(source, start, stride, count, m)[k]
  {
    if m < n {
      StridedPrefix(source, start, stride, count, m, n - 1, k);
      StridedStep(source, start, stride, count, n - 1);
    }
  }

  /** Byte i of row y of the gathered rows is that byte of the picture. */
  lemma StridedAt(source: seq<byte>, start: nat, stride: nat, count: nat, n: nat, y: nat, i: nat)
    requires y < n && i < count && start + Flat(y, stride) + count <= |source|
    ensures Flat(y, count) + i < |Strided(source, start, stride, count, n)|
    ensures Strided(source, start, stride, count, n)[Flat(y, count) + i] == source[start + Flat(y, stride) + i]
  {
    StridedLast(source, start, stride, count, y, i);
    StridedPrefix(source, start, stride, count, y + 1, n, Flat(y, count) + i);
  }

  /** Where the crop starts in a frame. */
  function CropStart(f: Format): nat {
    Flat(Margin(f.height), f.pitch) + 2 * Margin(f.width)
  }

  predicate IsFrame(f: Format, source: seq<byte>) {
    Usable(f) && |source| >= Flat(f.height, f.pitch)
  }

  /** The crop lies inside the frame, down to its last row and byte. */
  lemma CropInside(f: Format)
    requires Usable(f)
    ensures CropStart(f) + Flat(Kept(f.height) - 1, f.pitch) + SnapshotPitch(f) <= Flat(f.height, f.pitch)
  {
    CropIsCentred(f.width);
    CropIsCentred(f.height);
    FlatAdds(Margin(f.height), Kept(f.height) - 1, f.pitch);
    FlatGrows(Margin(f.height) + Kept(f.height), f.height, f.pitch);
  }

  /** The crop of a frame as the snapshot holds it. */
  function Crop(f: Format, source: seq<byte>): seq<byte>
    requires IsFrame(f, source)
  {
    Strided(source, CropStart(f), f.pitch, SnapshotPitch(f), Kept(f.height))
  }

  // ------------------------------------------------------------------------------- pixels

  /** rgb565_to_gray: the six green bits, from the byte with the high part and the one with the low part. */
  function Gray(high: byte, low: byte): (g: byte)
    ensures g == Brightness(Green(high, low))
  {
    Brightness(Green(high, low))
  }

  function Green(high: byte, low: byte): (g: nat)
    ensures g < 64
  {
    high % 8 * 8 + low / 32
  }

  /** Six bits widened to eight by repeating the top ones. */
  function Brightness(green: nat): (b: byte)
    requires green < 64
  {
    green * 4 + green / 16
  }

  /** The widening covers the whole scale, keeps the order and can be undone. */
  lemma BrightnessIsFaithful(g: nat, h: nat)
    requires g < 64 && h < 64
    ensures Brightness(0) == 0 && Brightness(63) == 255
    ensures g < h <==> Brightness(g) < Brightness(h)
    ensures Brightness(g) / 4 == g
  {
  }

  /** The gray value of a pixel given as two bytes in memory order. */
  function PixelGray(f: Format, first: byte, second: byte): byte {
    if f.pixels == Rgb565X then Gray(first, second) else Gray(second, first)
  }

  /** The gray image of n pixels. */
  function Grays(f: Format, pixels: seq<byte>, n: nat): (r: seq<byte>)
    requires 2 * n <= |pixels|
    ensures |r| == n
  {
    if n == 0 then [] else Grays(f, pixels, n - 1) + [PixelGray(f, pixels[2 * (n - 1)], pixels[2 * (n - 1) + 1])]
  }

  lemma {:induction false} GraysAt(f: Format, pixels: seq<byte>, n: nat, k: nat)
    requires 2 * n <= |pixels| && k < n
    ensures Grays(f, pixels, n)[k] == PixelGray(f, pixels[2 * k], pixels[2 * k + 1])
  {
    if k < n - 1 { GraysAt(f, pixels, n - 1, k); }
  }

  /** The gray image of a frame's crop. */
  function Image(f: Format, source: seq<byte>): (r: seq<byte>)
    requires IsFrame(f, source)
    ensures |r| == Flat(Kept(f.height), Kept(f.width))
  {
    FlatDoubles(Kept(f.height), Kept(f.width));
    StridedLength(source, CropStart(f), f.pitch, SnapshotPitch(f), Kept(f.height));
    Grays(f, Crop(f, source), Flat(Kept(f.height), Kept(f.width)))
  }

  /** A pixel of the crop lies inside the frame, and inside the image. */
  lemma PixelInside(f: Format, y: nat, x: nat)
    requires Usable(f) && y < Kept(f.height) && x < Kept(f.width)
    ensures Flat(y, Kept(f.width)) + x < Flat(Kept(f.height), Kept(f.width))
    ensures CropStart(f) + Flat(y, f.pitch) + SnapshotPitch(f) <= Flat(f.height, f.pitch)
    ensures CropStart(f) + Flat(y, f.pitch) == Flat(Margin(f.height) + y, f.pitch) + 2 * Margin(f.width)
  {
    CropInside(f);
    FlatAdds(Margin(f.height), y, f.pitch);
    FlatGrows(y, Kept(f.height) - 1, f.pitch);
    FlatGrows(y + 1, Kept(f.height), Kept(f.width));
  }

  /** Every pixel of the image is the gray value of the pixel of the frame at the same place of the crop. */
  lemma ImageAt(f: Format, source: seq<byte>, y: nat, x: nat)
    requires IsFrame(f, source) && y < Kept(f.height) && x < Kept(f.width)
    ensures var at := Flat(Margin(f.height) + y, f.pitch) + 2 * (Margin(f.width) + x);
            && Flat(y, Kept(f.width)) + x < |Image(f, source)| && at + 1 < |source|
            && Image(f, source)[Flat(y, Kept(f.width)) + x] == PixelGray(f, source[at], source[at + 1])
  {
    PixelInside(f, y, x);
    StridedPixel(f, source, CropStart(f), f.pitch, Kept(f.width), Kept(f.height), y, x);
  }

  lemma StridedPixel(f: Format, source: seq<byte>, start: nat, stride: nat, w: nat, h: nat, y: nat, x: nat)
    requires y < h && x < w && start + Flat(y, stride) + 2 * w <= |source|
    ensures var snapshot, n, k, at := Strided(source, start, stride, 2 * w, h), Flat(h, w),
                                      Flat(y, w) + x, start + Flat(y, stride) + 2 * x;
            && |snapshot| == 2 * n && at + 1 < |source| && k < n
            && Grays(f, snapshot, n)[k] == PixelGray(f, source[at], source[at + 1])
  {
    FlatDoubles(h, w);
    FlatDoubles(y, w);
    FlatGrows(y + 1, h, w);
    StridedAt(source, start, stride, 2 * w, h, y, 2 * x);
    StridedAt(source, start, stride, 2 * w, h, y, 2 * x + 1);
    StridedLength(source, start, stride, 2 * w, h);
    GraysAt(f, Strided(source, start, stride, 2 * w, h), Flat(h, w), Flat(y, w) + x);
  }

  // ---------------------------------------------------------------------------- in place

  class QrDecoder {
    const format: Format
    const snapshot: array<byte>
    const image: array<byte>

    ghost predicate Valid() {
      && Usable(format)
      && snapshot.Length == Flat(Kept(format.height), SnapshotPitch(format))
      && image.Length == Flat(Kept(format.height), Kept(format.width))
      && (snapshot as object) != image
    }

    constructor (f: Format)
      requires Supported(f)
      ensures Valid() && format == f && fresh(snapshot) && fresh(image)
    {
      SupportedIsUsable(f);
      format := f;
      snapshot := new byte[Flat(Kept(f.height), SnapshotPitch(f))](_ => 0);
      image := new byte[Flat(Kept(f.height), Kept(f.width))](_ => 0);
    }

    /** The copy in app_qr_decoder_submit: row by row from the crop of the frame. */
    method CopyCrop(source: array<byte>)
      requires Valid() && IsFrame(format, source[..]) && source != snapshot
      modifies snapshot
      ensures snapshot[..] == Crop(format, source[..])
    {
      CropInside(format);
      CopyRows(source, CropStart(format), format.pitch, SnapshotPitch(format), Kept(format.height));
    }

    method CopyRows(source: array<byte>, start: nat, stride: nat, count: nat, rows: nat)
      requires rows > 0 && source != snapshot
      requires start + Flat(rows - 1, stride) + count <= source.Length && Flat(rows, count) == snapshot.Length
      modifies snapshot
      ensures snapshot[..] == Strided(source[..], start, stride, count, rows)
    {
      var y := 0;
      ghost var picture := source[..];
      while y < rows
        invariant y <= rows && Flat(y, count) <= snapshot.Length && source[..] == picture
        invariant snapshot[..Flat(y, count)] == Strided(picture, start, stride, count, y)
        modifies snapshot
      {
        FlatGrows(y + 1, rows, count);
        FlatGrows(y, rows - 1, stride);
        var from, to := start + Flat(y, stride), Flat(y, count);
        StridedStep(picture, start, stride, count, y);
        CopyRow(source, from, to, count, picture);
        y := y + 1;
      }
    }

    /** memcpy of one row. */
    method CopyRow(source: array<byte>, from: nat, to: nat, count: nat, ghost picture: seq<byte>)
      requires source != snapshot && from + count <= source.Length
      requires to + count <= snapshot.Length && picture == source[..]
      modifies snapshot
      ensures snapshot[..to + count] == old(snapshot[..to]) + Row(picture, from, count)
    {
      assert Row(picture, from, count) == source[from..from + count];
      for i := 0 to count
        invariant snapshot[..to + i] == old(snapshot[..to]) + source[from..from + i]
        modifies snapshot
      {
        snapshot[to + i] := source[from + i];
      }
    }

    /** The conversion in the decoder thread. */
    method Convert()
      requires Valid()
      modifies image
      ensures |snapshot[..]| == 2 * image.Length && image[..] == Grays(format, snapshot[..], image.Length)
    {
      var rows, width := Kept(format.height), Kept(format.width);
      FlatDoubles(rows, width);
      var y := 0;
      while y < rows
        invariant y <= rows && Flat(y, width) <= image.Length
        invariant forall k :: 0 <= k < Flat(y, width) ==>
                    image[k] == PixelGray(format, snapshot[2 * k], snapshot[2 * k + 1])
        modifies image
      {
        FlatGrows(y + 1, rows, width);
        FlatDoubles(y, width);
        ConvertRow(Flat(y, SnapshotPitch(format)), Flat(y, width), width);
        y := y + 1;
      }
      forall k | 0 <= k < image.Length ensures image[k] == Grays(format, snapshot[..], image.Length)[k] {
        GraysAt(format, snapshot[..], image.Length, k);
      }
    }

    /** One row of it. */
    method ConvertRow(row: nat, gray: nat, width: nat)
      requires row == 2 * gray && gray + width <= image.Length
      requires snapshot.Length == 2 * image.Length && (snapshot as object) != image
      requires forall k :: 0 <= k < gray ==> image[k] == PixelGray(format, snapshot[2 * k], snapshot[2 * k + 1])
      modifies image
      ensures forall k :: 0 <= k < gray + width ==> image[k] == PixelGray(format, snapshot[2 * k], snapshot[2 * k + 1])
    {
      for x := 0 to width
        invariant forall k :: 0 <= k < gray + x ==> image[k] == PixelGray(format, snapshot[2 * k], snapshot[2 * k + 1])
        modifies image
      {
        image[gray + x] := PixelGray(format, snapshot[row + x * 2], snapshot[row + x * 2 + 1]);
      }
    }
  }
}
