/** Images as H x W x C arrays of pixel values, channel reversal and numpy-style cropping. */
module Raster {
  import opened Geometry

  /** One pixel: its channel values, in order. */
  type Pixel = seq<int>

  /** An image, row by row, each row a sequence of pixels. */
  type Image = seq<seq<Pixel>>

  /** `img` is a rectangular array of shape h x w x c. */
  ghost predicate IsRaster(img: Image, h: nat, w: nat, c: nat)
  {
    |img| == h &&
    forall i :: 0 <= i < h ==> |img[i]| == w && forall j :: 0 <= j < w ==> |img[i][j]| == c
  }

  /** One pixel with its channels in reverse order. */
  function ReversePixel(p: Pixel): Pixel
  {
    seq(|p|, k requires 0 <= k < |p| => p[|p| - 1 - k])
  }

  /** numpy's `img[..., ::-1]`: every pixel with its channel axis reversed. */
  function ReverseChannels(img: Image): (r: Image)
    ensures |r| == |img|
    ensures forall i :: 0 <= i < |img| ==> |r[i]| == |img[i]|
  {
    seq(|img|, i requires 0 <= i < |img| =>
      seq(|img[i]|, j requires 0 <= j < |img[i]| => ReversePixel(img[i][j])))
  }

  /** On an h x w x 3 image the reversal keeps the shape and swaps channels 0 and 2. */
  lemma ReverseChannelsRgb(img: Image, h: nat, w: nat)
    requires IsRaster(img, h, w, 3)
    ensures IsRaster(ReverseChannels(img), h, w, 3)
    ensures forall i, j, c :: 0 <= i < h && 0 <= j < w && 0 <= c < 3 ==>
      ReverseChannels(img)[i][j][c] == img[i][j][2 - c]
  {
  }

  /** Reversing the channels twice gives back the original image. */
  lemma ReverseChannelsInvolution(img: Image)
    ensures ReverseChannels(ReverseChannels(img)) == img
  {
    var r := ReverseChannels(ReverseChannels(img));
    forall i | 0 <= i < |img|
      ensures r[i] == img[i]
    {
      forall j | 0 <= j < |img[i]|
        ensures r[i][j] == img[i][j]
      {
        assert r[i][j] == ReversePixel(ReversePixel(img[i][j]));
      }
    }
  }

  /** Python's normalisation of a slice bound against a length n: a negative bound
      counts from the end, and the result is clamped to [0, n]. */
  function SliceBound(i: int, n: nat): (k: nat)
    ensures k <= n
    ensures 0 <= i <= n ==> k == i
    ensures i < 0 && -i <= n ==> k == n + i
    ensures (i < 0 && n < -i ==> k == 0) && (n < i ==> k == n)
  {
    if i < 0 then (if n + i < 0 then 0 else n + i)
    else if i > n then n
    else i
  }

  /** The number of items a slice with normalised bounds lo and hi selects. */
  function Span(lo: nat, hi: nat): nat
  {
    if lo < hi then hi - lo else 0
  }

  /** Python's `s[start:stop]` with step 1. */
  function Slice<T>(s: seq<T>, start: int, stop: int): (r: seq<T>)
    ensures var lo, hi := SliceBound(start, |s|), SliceBound(stop, |s|);
      |r| == Span(lo, hi) && forall k :: 0 <= k < |r| ==> r[k] == s[lo + k]
  {
    var lo, hi := SliceBound(start, |s|), SliceBound(stop, |s|);
    if lo < hi then s[lo..hi] else []
  }

  /** numpy's `img[y1:y2, x1:x2]`: rows y1 up to y2, columns x1 up to x2, ends exclusive.
      Row i of the crop is row ylo + i of the image, with ylo the normalised y1, sliced by x1:x2. */
  function Crop(img: Image, roi: IntBox): (r: Image)
    ensures var ylo, yhi := SliceBound(roi.y1, |img|), SliceBound(roi.y2, |img|);
      |r| == Span(ylo, yhi) && forall i :: 0 <= i < |r| ==> r[i] == Slice(img[ylo + i], roi.x1, roi.x2)
  {
    var rows := Slice(img, roi.y1, roi.y2);
    seq(|rows|, i requires 0 <= i < |rows| => Slice(rows[i], roi.x1, roi.x2))
  }

  /** Whatever the corners, the crop of an h x w x c image is a rectangular sub-array:
      its rows and columns are the normalised bound ranges of the slices. */
  lemma CropIsRaster(img: Image, roi: IntBox, h: nat, w: nat, c: nat)
    requires IsRaster(img, h, w, c)
    ensures var ylo, yhi := SliceBound(roi.y1, h), SliceBound(roi.y2, h);
      var xlo, xhi := SliceBound(roi.x1, w), SliceBound(roi.x2, w);
      IsRaster(Crop(img, roi), Span(ylo, yhi), Span(xlo, xhi), c) &&
      forall i, j :: 0 <= i < Span(ylo, yhi) && 0 <= j < Span(xlo, xhi) ==>
        Crop(img, roi)[i][j] == img[ylo + i][xlo + j]
  {
    var rows := Slice(img, roi.y1, roi.y2);
    var ylo := SliceBound(roi.y1, h);
    forall i | 0 <= i < |rows|
      ensures rows[i] == img[ylo + i] && |rows[i]| == w
    {
    }
  }

  /** For corners inside the image with x1 <= x2 and y1 <= y2, the crop has shape
      (y2 - y1) x (x2 - x1) and its pixel (i, j) is the image's pixel (y1 + i, x1 + j). */
  lemma CropInBounds(img: Image, roi: IntBox, h: nat, w: nat, c: nat)
    requires IsRaster(img, h, w, c)
    requires 0 <= roi.x1 <= roi.x2 <= w && 0 <= roi.y1 <= roi.y2 <= h
    ensures IsRaster(Crop(img, roi), roi.y2 - roi.y1, roi.x2 - roi.x1, c)
    ensures forall i, j :: 0 <= i < roi.y2 - roi.y1 && 0 <= j < roi.x2 - roi.x1 ==>
      Crop(img, roi)[i][j] == img[roi.y1 + i][roi.x1 + j]
  {
    CropIsRaster(img, roi, h, w, c);
  }
}
