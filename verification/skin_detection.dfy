/**
  The fallback face detector (`detectFacesSimple`): a skin-tone test on every
  RGBA pixel of the 100x100 centre crop, and a strict 15% threshold on the
  fraction of skin pixels.

  The pixel buffer is the canvas's `ImageData.data`: a flat sequence of
  clamped bytes, four per pixel (red, green, blue, alpha). Drawing the crop
  is not modelled; the buffer is the input.
 */
module SkinDetection {

  /** An element of a `Uint8ClampedArray`. */
  type Byte = x: int | 0 <= x < 256

  /** Side of the square crop the frame is scaled down to. */
  const CropSide := 100

  /** Length of the crop's RGBA buffer: 100 * 100 pixels of 4 bytes. */
  const CropBytes := CropSide * CropSide * 4

  /** The six conditions that carry the skin test. */
  predicate SkinCore(r: int, g: int, b: int) {
    r > 60 && g > 40 && b > 20 && r - g > 15 && r - b > 15 && -15 < g - b < 15
  }

  /** The skin-tone heuristic as written, with its redundant red-dominance conjuncts. It holds
      exactly when the six core conditions do: `r > g`, `r > b` and `|r - g| > 15` follow from
      `r - g > 15` and `r - b > 15`. */
  predicate IsSkin(r: int, g: int, b: int)
    ensures IsSkin(r, g, b) <==> SkinCore(r, g, b)
  {
    && r > 60 && g > 40 && b > 20
    && r > g && r > b
    && (if r - g < 0 then g - r else r - g) > 15
    && r - g > 15 && r - b > 15
    && (if g - b < 0 then b - g else g - b) < 15
  }

  /** Number of pixels the scan visits: one per started group of four bytes. */
  function Visited(len: nat): nat {
    (len + 3) / 4
  }

  /** The pixel starting at byte `i` is skin. A pixel cut short by the end of the buffer reads
      `undefined` channels, which fail every comparison. */
  predicate SkinAt(data: seq<Byte>, i: nat) {
    i + 2 < |data| && IsSkin(data[i], data[i + 1], data[i + 2])
  }

  /** Reference count: skin pixels among the first `k` pixels. */
  function SkinCount(data: seq<Byte>, k: nat): (n: nat)
    ensures n <= k
  {
    if k == 0 then 0
    else SkinCount(data, k - 1) + (if SkinAt(data, 4 * (k - 1)) then 1 else 0)
  }

  /** The scanning loop `for (i = 0; i < data.length; i += 4)`. */
  method CountSkinPixels(data: seq<Byte>) returns (count: nat)
    ensures count == SkinCount(data, Visited(|data|))
  {
    count := 0;
    var i := 0;
    var k := 0;
    while i < |data|
      invariant i == 4 * k
      invariant k <= Visited(|data|)
      invariant count == SkinCount(data, k)
      decreases |data| - i
    {
      if i + 2 < |data| && IsSkin(data[i], data[i + 1], data[i + 2]) {
        count := count + 1;
      }
      i := i + 4;
      k := k + 1;
    }
  }

  /** `skinPixelCount / (data.length / 4) > 0.15`. An empty buffer gives 0 / 0, which is NaN and
      compares false. The ratio is computed exactly here. */
  predicate FaceFound(skinCount: nat, dataLength: nat) {
    dataLength > 0 && (skinCount as real) / ((dataLength as real) / 4.0) > 0.15
  }

  /** The threshold in integers: more than 3 skin pixels in every 80 bytes, strictly. */
  lemma FaceFoundIntegral(skinCount: nat, dataLength: nat)
    ensures FaceFound(skinCount, dataLength) <==> dataLength > 0 && 80 * skinCount > 3 * dataLength
  {
    if dataLength > 0 {
      var total := (dataLength as real) / 4.0;
      var ratio := (skinCount as real) / total;
      assert ratio * total == skinCount as real;
      assert 0.15 * total == 0.0375 * (dataLength as real);
      if ratio > 0.15 {
        ProductSign(ratio - 0.15, total);
        assert (ratio - 0.15) * total == ratio * total - 0.15 * total;
      } else {
        ProductSign(0.15 - ratio, total);
        assert (0.15 - ratio) * total == 0.15 * total - ratio * total;
      }
    }
  }

  lemma ProductSign(a: real, t: real)
    requires t > 0.0
    ensures a > 0.0 ==> a * t > 0.0
    ensures a >= 0.0 ==> a * t >= 0.0
  {
  }

  /** On the 100x100 crop a face is found exactly when more than 1500 of its 10000 pixels are
      skin: 15% exactly is not enough. */
  lemma CropThreshold(skinCount: nat)
    ensures FaceFound(skinCount, CropBytes) <==> skinCount > 1500
  {
    FaceFoundIntegral(skinCount, CropBytes);
  }

  /** The reference ratios: 20% skin is a face, 15% and 5% are not. */
  lemma CropExamples()
    ensures FaceFound(2000, CropBytes)
    ensures !FaceFound(1500, CropBytes)
    ensures !FaceFound(500, CropBytes)
  {
    CropThreshold(2000);
    CropThreshold(1500);
    CropThreshold(500);
  }

  /** More skin pixels never turn a detection off. */
  lemma FaceFoundMonotone(a: nat, b: nat, dataLength: nat)
    requires a <= b
    ensures FaceFound(a, dataLength) ==> FaceFound(b, dataLength)
  {
    FaceFoundIntegral(a, dataLength);
    FaceFoundIntegral(b, dataLength);
  }

  /** `detectFacesSimple` from the crop's pixels to the presence signal. */
  method DetectFacesSimple(data: seq<Byte>) returns (faceFound: bool)
    ensures faceFound <==> |data| > 0 && 80 * SkinCount(data, Visited(|data|)) > 3 * |data|
  {
    var skin := CountSkinPixels(data);
    faceFound := FaceFound(skin, |data|);
    FaceFoundIntegral(skin, |data|);
  }
}
