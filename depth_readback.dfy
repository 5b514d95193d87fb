/**
  Depth readback of `Renderer._read_main_framebuffer` (renderer.py): the
  device depth buffer read back from the resolved framebuffer is reshaped,
  flipped vertically, and converted to linear eye-space depth; pixels at the
  far plane (device depth exactly 1.0) become the background value 0.0.
  float32 values are idealised as reals.
 */
module DepthReadback {
  import opened Optional
  import Images

  /** One float32 cell: a real value, or the infinity or NaN that an IEEE
      division by zero yields. */
  datatype Float = Finite(value: real) | NonFinite

  /** Device depth of a pixel where no geometry was drawn (the far plane). */
  const Sentinel: real := 1.0

  /** Device depth in [0, 1] to normalised device coordinates in [-1, 1]. */
  function Remap(d: real): real {
    2.0 * d - 1.0
  }

  /** The perspective-inverse formula applied to the non-sentinel pixels, on a
      normalised device coordinate: with a far plane at `zFar`, or with the far
      plane at infinity when `zFar` is None. */
  function Linearize(ndc: real, zNear: real, zFar: Option<real>): (v: Float)
    ensures zFar.None? ==> (v.NonFinite? <==> ndc == 1.0)
    ensures zFar.None? && v.Finite? ==> v.value * (1.0 - ndc) == 2.0 * zNear
    ensures zFar.Some? ==> (v.NonFinite? <==> FarDenominator(ndc, zNear, zFar.value) == 0.0)
    ensures zFar.Some? && v.Finite? ==> v.value * FarDenominator(ndc, zNear, zFar.value) == 2.0 * zNear * zFar.value
  {
    match zFar
    case None =>
      if 1.0 - ndc == 0.0 then NonFinite else Finite(2.0 * zNear / (1.0 - ndc))
    case Some(f) =>
      var den := FarDenominator(ndc, zNear, f);
      if den == 0.0 then NonFinite else Finite(2.0 * zNear * f / den)
  }

  /** The denominator of the finite-far-plane formula: a blend of the two
      planes that is 2 z_far at ndc = -1 (the near plane) and 2 z_near at
      ndc = 1 (the far plane). */
  function FarDenominator(ndc: real, zNear: real, zFar: real): (den: real)
    ensures ndc == -1.0 ==> den == 2.0 * zFar
    ensures ndc == 1.0 ==> den == 2.0 * zNear
  {
    zFar + zNear - ndc * (zFar - zNear)
  }

  /** The linear depth of one device-depth pixel. */
  function DepthPixel(d: real, zNear: real, zFar: Option<real>): (v: Float)
    ensures d == Sentinel ==> v == Finite(0.0)
    ensures d != Sentinel ==> v == Linearize(Remap(d), zNear, zFar)
  {
    if d == Sentinel then Finite(0.0) else Linearize(Remap(d), zNear, zFar)
  }

  /** The depth image `read` returns (before any density rescale): the raw
      buffer reshaped to (height, width), flipped, and converted pixel by pixel. */
  function DepthImage(raw: seq<real>, height: nat, width: nat, zNear: real, zFar: Option<real>): (im: seq<seq<Float>>)
    requires |raw| == height * width
    ensures |im| == height && forall i :: 0 <= i < height ==> |im[i]| == width
  {
    var img := Images.FlipRows(Images.Reshape(raw, height, width));
    seq(height, i requires 0 <= i < height =>
      seq(width, j requires 0 <= j < width => DepthPixel(img[i][j], zNear, zFar)))
  }

  /** Output row i is input row height - 1 - i; a pixel whose raw depth is
      exactly 1.0 reads 0.0 whatever the clip planes are. */
  lemma DepthImageAt(raw: seq<real>, height: nat, width: nat, zNear: real, zFar: Option<real>, i: nat, j: nat)
    requires |raw| == height * width
    requires i < height && j < width
    ensures Images.Offset(height - 1 - i, width, j) < |raw|
    ensures DepthImage(raw, height, width, zNear, zFar)[i][j] == DepthPixel(raw[Images.Offset(height - 1 - i, width, j)], zNear, zFar)
    ensures raw[Images.Offset(height - 1 - i, width, j)] == Sentinel ==> DepthImage(raw, height, width, zNear, zFar)[i][j] == Finite(0.0)
  {
    Images.FlippedAt(raw, height, width, i, j);
  }

  /** Device depth 0 (the near plane) reads exactly z_near. */
  lemma NearPlaneDepth(zNear: real, zFar: Option<real>)
    requires zFar.Some? ==> zFar.value != 0.0
    ensures DepthPixel(0.0, zNear, zFar) == Finite(zNear)
  {
    if zFar.Some? {
      var f := zFar.value;
      assert FarDenominator(Remap(0.0), zNear, f) == 2.0 * f;
      assert 2.0 * zNear * f == zNear * (2.0 * f);
      DivCancel(zNear, 2.0 * f);
    }
  }

  /** Dividing a positive numerator by a larger positive denominator gives a
      smaller quotient. */
  lemma DivAntitone(num: real, a: real, b: real)
    requires 0.0 < num && 0.0 < a <= b
    ensures num / b <= num / a
    ensures a < b ==> num / b < num / a
  {
    var qa, qb := num / a, num / b;
    assert qa * a == num && qb * b == num;
    assert 0.0 < qb;
    MulMonotone(qb, a, b);
    assert qb * a <= num;
    if qb > qa {
      MulMonotone(a, qa, qb);
      assert false;
    }
    if a < b {
      MulMonotone(qb, a, b);
      assert qb * a < num;
      if qb == qa { assert false; }
    }
  }

  lemma DivCancel(a: real, b: real)
    requires b != 0.0
    ensures (a * b) / b == a
  {
  }

  lemma MulMonotone(c: real, x: real, y: real)
    requires 0.0 < c && x <= y
    ensures c * x <= c * y
    ensures x < y ==> c * x < c * y
  {
    assert c * y - c * x == c * (y - x);
  }

  /** For device depth d in [0, 1) and 0 < z_near < z_far the denominator
      lies in (2 z_near, 2 z_far] and falls as d rises. */
  lemma FarDenominatorBounds(d: real, zNear: real, zFar: real)
    requires 0.0 < zNear < zFar && 0.0 <= d < 1.0
    ensures 2.0 * zNear < FarDenominator(Remap(d), zNear, zFar) <= 2.0 * zFar
    ensures FarDenominator(Remap(d), zNear, zFar) == 2.0 * zFar - 2.0 * ((zFar - zNear) * d)
  {
    var k := zFar - zNear;
    assert FarDenominator(Remap(d), zNear, zFar) == 2.0 * zFar - 2.0 * (k * d);
    MulMonotone(k, 0.0, d);
    MulMonotone(k, d, 1.0);
  }

  /** With a finite far plane and 0 < z_near < z_far, every device depth in
      [0, 1) reads a linear depth in [z_near, z_far). */
  lemma FiniteFarDepthInRange(d: real, zNear: real, zFar: real)
    requires 0.0 < zNear < zFar && 0.0 <= d < 1.0
    ensures DepthPixel(d, zNear, Some(zFar)).Finite?
    ensures zNear <= DepthPixel(d, zNear, Some(zFar)).value < zFar
  {
    var den := FarDenominator(Remap(d), zNear, zFar);
    FarDenominatorBounds(d, zNear, zFar);
    var num := 2.0 * zNear * zFar;
    assert DepthPixel(d, zNear, Some(zFar)) == Finite(num / den);
    MulMonotone(2.0 * zNear, 0.0, zFar);
    DivAntitone(num, den, 2.0 * zFar);
    DivAntitone(num, 2.0 * zNear, den);
    assert num == zNear * (2.0 * zFar) == zFar * (2.0 * zNear);
    DivCancel(zNear, 2.0 * zFar);
    DivCancel(zFar, 2.0 * zNear);
  }

  /** The denominator falls as the normalised device coordinate rises. */
  lemma FarDenominatorDecreasing(ndc1: real, ndc2: real, zNear: real, zFar: real)
    requires zNear < zFar && ndc1 < ndc2
    ensures FarDenominator(ndc2, zNear, zFar) < FarDenominator(ndc1, zNear, zFar)
  {
    var gap := zFar - zNear;
    assert FarDenominator(ndc1, zNear, zFar) - FarDenominator(ndc2, zNear, zFar) == ndc2 * gap - ndc1 * gap;
    assert ndc2 * gap - ndc1 * gap == (ndc2 - ndc1) * gap;
    MulMonotone(gap, 0.0, ndc2 - ndc1);
    assert 0.0 < gap * (ndc2 - ndc1) == (ndc2 - ndc1) * gap;
  }

  /** With a finite far plane, linear depth strictly increases with device depth. */
  lemma FiniteFarDepthIncreasing(d1: real, d2: real, zNear: real, zFar: real)
    requires 0.0 < zNear < zFar && 0.0 <= d1 < d2 < 1.0
    ensures DepthPixel(d1, zNear, Some(zFar)).Finite? && DepthPixel(d2, zNear, Some(zFar)).Finite?
    ensures DepthPixel(d1, zNear, Some(zFar)).value < DepthPixel(d2, zNear, Some(zFar)).value
  {
    var den1 := FarDenominator(Remap(d1), zNear, zFar);
    var den2 := FarDenominator(Remap(d2), zNear, zFar);
    FarDenominatorBounds(d1, zNear, zFar);
    FarDenominatorBounds(d2, zNear, zFar);
    FarDenominatorDecreasing(Remap(d1), Remap(d2), zNear, zFar);
    assert 0.0 < den2 < den1;
    var num := 2.0 * zNear * zFar;
    MulMonotone(2.0 * zNear, 0.0, zFar);
    DivAntitone(num, den2, den1);
    assert DepthPixel(d1, zNear, Some(zFar)) == Finite(num / den1);
    assert DepthPixel(d2, zNear, Some(zFar)) == Finite(num / den2);
  }

  /** With the far plane at infinity and z_near > 0, device depth d in [0, 1)
      reads z_near / (1 - d), which is at least z_near. */
  lemma InfiniteFarDepth(d: real, zNear: real)
    requires 0.0 < zNear && 0.0 <= d < 1.0
    ensures DepthPixel(d, zNear, None) == Finite(zNear / (1.0 - d))
    ensures zNear <= zNear / (1.0 - d)
  {
    var e := 1.0 - d;
    assert 1.0 - Remap(d) == 2.0 * e;
    var q, v := zNear / e, 2.0 * zNear / (2.0 * e);
    assert v * (2.0 * e) == 2.0 * zNear;
    assert q * (2.0 * e) == 2.0 * (q * e) == 2.0 * zNear;
    MulCancel(v, q, 2.0 * e);
    DivAntitone(zNear, e, 1.0);
  }

  /** With the far plane at infinity, linear depth strictly increases with device depth. */
  lemma InfiniteFarDepthIncreasing(d1: real, d2: real, zNear: real)
    requires 0.0 < zNear && 0.0 <= d1 < d2 < 1.0
    ensures DepthPixel(d1, zNear, None).Finite? && DepthPixel(d2, zNear, None).Finite?
    ensures DepthPixel(d1, zNear, None).value < DepthPixel(d2, zNear, None).value
  {
    InfiniteFarDepth(d1, zNear);
    InfiniteFarDepth(d2, zNear);
    DivAntitone(zNear, 1.0 - d2, 1.0 - d1);
  }

  /** The normalised device coordinate the OpenGL perspective projection
      with clip planes z_near and z_far (or with the far plane at infinity)
      gives a point at eye-space distance z. */
  function ProjectedNdc(z: real, zNear: real, zFar: Option<real>): real
    requires z != 0.0
    requires zFar.Some? ==> zFar.value != zNear
  {
    match zFar
    case None => 1.0 - 2.0 * zNear / z
    case Some(f) => ((f + zNear) * z - 2.0 * f * zNear) / ((f - zNear) * z)
  }

  /** The device depth that projection writes to the depth buffer. */
  function DeviceDepth(z: real, zNear: real, zFar: Option<real>): (d: real)
    requires z != 0.0
    requires zFar.Some? ==> zFar.value != zNear
    ensures Remap(d) == ProjectedNdc(z, zNear, zFar)
  {
    (ProjectedNdc(z, zNear, zFar) + 1.0) / 2.0
  }

  lemma MulCancel(a: real, b: real, c: real)
    requires c != 0.0 && a * c == b * c
    ensures a == b
  {
    assert (a - b) * c == 0.0;
  }

  /** With the far plane at infinity the readback recovers the eye-space
      distance of every point beyond the near plane. */
  lemma InfiniteFarInvertsProjection(z: real, zNear: real)
    requires 0.0 < zNear <= z
    ensures DepthPixel(DeviceDepth(z, zNear, None), zNear, None) == Finite(z)
  {
    var q := 2.0 * zNear / z;
    assert q * z == 2.0 * zNear;
    assert q != 0.0;
    var ndc := ProjectedNdc(z, zNear, None);
    assert 1.0 - ndc == q;
    assert DeviceDepth(z, zNear, None) != Sentinel;
    var v := 2.0 * zNear / q;
    assert v * q == 2.0 * zNear;
    MulCancel(v, z, q);
  }

  /** At the projected coordinate of z, the denominator times z is 2 z_far z_near. */
  lemma ProjectedFarDenominator(z: real, zNear: real, zFar: real)
    requires 0.0 < zNear <= z < zFar
    ensures FarDenominator(ProjectedNdc(z, zNear, Some(zFar)), zNear, zFar) * z == 2.0 * zFar * zNear
  {
    var k := zFar - zNear;
    var ndc := ProjectedNdc(z, zNear, Some(zFar));
    assert ndc * (k * z) == (zFar + zNear) * z - 2.0 * zFar * zNear;
    var den := FarDenominator(ndc, zNear, zFar);
    assert den * z == (zFar + zNear) * z - ndc * (k * z);
  }

  /** With a finite far plane the readback recovers the eye-space distance of
      every point from the near plane up to (not including) the far plane. */
  lemma FiniteFarInvertsProjection(z: real, zNear: real, zFar: real)
    requires 0.0 < zNear <= z < zFar
    ensures DepthPixel(DeviceDepth(z, zNear, Some(zFar)), zNear, Some(zFar)) == Finite(z)
  {
    var ndc := ProjectedNdc(z, zNear, Some(zFar));
    var den := FarDenominator(ndc, zNear, zFar);
    ProjectedFarDenominator(z, zNear, zFar);
    assert den != 0.0;
    assert den * z != den * zFar by {
      assert zFar * (2.0 * zNear) != z * (2.0 * zNear);
    }
    assert DeviceDepth(z, zNear, Some(zFar)) != Sentinel;
    var v := 2.0 * zNear * zFar / den;
    assert v * den == 2.0 * zNear * zFar;
    MulCancel(v, z, den);
  }

  /** The readback inverts the projection: a point at eye-space distance z
      between the near and the far plane reads back as z. */
  lemma LinearizeInvertsProjection(z: real, zNear: real, zFar: Option<real>)
    requires 0.0 < zNear <= z
    requires zFar.Some? ==> z < zFar.value
    ensures DepthPixel(DeviceDepth(z, zNear, zFar), zNear, zFar) == Finite(z)
  {
    match zFar
    case None => InfiniteFarInvertsProjection(z, zNear);
    case Some(f) => FiniteFarInvertsProjection(z, zNear, f);
  }

  /** A point exactly on the far plane reads as background: the projection
      puts it at device depth 1.0, which the readback maps to 0.0. */
  lemma FarPlaneReadsAsBackground(zNear: real, zFar: real)
    requires 0.0 < zNear < zFar
    ensures DeviceDepth(zFar, zNear, Some(zFar)) == Sentinel
    ensures DepthPixel(DeviceDepth(zFar, zNear, Some(zFar)), zNear, Some(zFar)) == Finite(0.0)
  {
    var k := zFar - zNear;
    assert (zFar + zNear) * zFar - 2.0 * zFar * zNear == k * zFar;
    assert k * zFar != 0.0;
    assert ProjectedNdc(zFar, zNear, Some(zFar)) == (k * zFar) / (k * zFar) == 1.0;
  }

  /** Cell (r, c) of the image after `depth_im = 2.0 * depth_im - 1.0`. */
  function RemappedCell(img: seq<seq<real>>, r: nat, c: nat): Float
    requires r < |img| && c < |img[r]|
  {
    Finite(Remap(img[r][c]))
  }

  /** Cell (r, c) once the non-sentinel cells have been linearised. */
  function LinearizedCell(img: seq<seq<real>>, r: nat, c: nat, zNear: real, zFar: Option<real>): Float
    requires r < |img| && c < |img[r]|
  {
    if img[r][c] == Sentinel then RemappedCell(img, r, c) else Linearize(Remap(img[r][c]), zNear, zFar)
  }

  /** `depth_im[noninf] = <formula>(depth_im[noninf])`: every cell the mask
      does not mark is overwritten, in place, with its linear depth. */
  method LinearizeUnmasked(im: array2<Float>, infInds: array2<bool>, img: seq<seq<real>>, zNear: real, zFar: Option<real>)
    requires im.Length0 == infInds.Length0 == |img| && im.Length1 == infInds.Length1
    requires forall r :: 0 <= r < |img| ==> |img[r]| == im.Length1 == infInds.Length1
    requires forall r, c :: 0 <= r < im.Length0 && 0 <= c < im.Length1 ==> infInds[r, c] == (img[r][c] == Sentinel)
    requires forall r, c :: 0 <= r < im.Length0 && 0 <= c < im.Length1 ==> im[r, c] == RemappedCell(img, r, c)
    modifies im
    ensures forall r, c :: 0 <= r < im.Length0 && 0 <= c < im.Length1 ==> im[r, c] == LinearizedCell(img, r, c, zNear, zFar)
  {
    var height, width := im.Length0, im.Length1;
    var i := 0;
    while i < height
      invariant 0 <= i <= height
      invariant forall r, c :: 0 <= r < i && 0 <= c < width ==> im[r, c] == LinearizedCell(img, r, c, zNear, zFar)
      invariant forall r, c :: i <= r < height && 0 <= c < width ==> im[r, c] == RemappedCell(img, r, c)
    {
      var j := 0;
      while j < width
        invariant 0 <= j <= width
        invariant forall r, c :: 0 <= r < i && 0 <= c < width ==> im[r, c] == LinearizedCell(img, r, c, zNear, zFar)
        invariant forall c :: 0 <= c < j ==> im[i, c] == LinearizedCell(img, i, c, zNear, zFar)
        invariant forall r, c :: i <= r < height && 0 <= c < width && (r > i || c >= j) ==> im[r, c] == RemappedCell(img, r, c)
      {
        if !infInds[i, j] {
          im[i, j] := Linearize(im[i, j].value, zNear, zFar);
        }
        j := j + 1;
      }
      i := i + 1;
    }
  }

  /** `depth_im[inf_inds] = 0.0`: every cell the mask marks is overwritten,
      in place, with the background value. */
  method ZeroMasked(im: array2<Float>, infInds: array2<bool>, img: seq<seq<real>>, zNear: real, zFar: Option<real>)
    requires im.Length0 == infInds.Length0 == |img| && im.Length1 == infInds.Length1
    requires forall r :: 0 <= r < |img| ==> |img[r]| == im.Length1 == infInds.Length1
    requires forall r, c :: 0 <= r < im.Length0 && 0 <= c < im.Length1 ==> infInds[r, c] == (img[r][c] == Sentinel)
    requires forall r, c :: 0 <= r < im.Length0 && 0 <= c < im.Length1 ==> im[r, c] == LinearizedCell(img, r, c, zNear, zFar)
    modifies im
    ensures forall r, c :: 0 <= r < im.Length0 && 0 <= c < im.Length1 ==> im[r, c] == DepthPixel(img[r][c], zNear, zFar)
  {
    var height, width := im.Length0, im.Length1;
    var i := 0;
    while i < height
      invariant 0 <= i <= height
      invariant forall r, c :: 0 <= r < i && 0 <= c < width ==> im[r, c] == DepthPixel(img[r][c], zNear, zFar)
      invariant forall r, c :: i <= r < height && 0 <= c < width ==> im[r, c] == LinearizedCell(img, r, c, zNear, zFar)
    {
      var j := 0;
      while j < width
        invariant 0 <= j <= width
        invariant forall r, c :: 0 <= r < i && 0 <= c < width ==> im[r, c] == DepthPixel(img[r][c], zNear, zFar)
        invariant forall c :: 0 <= c < j ==> im[i, c] == DepthPixel(img[i][c], zNear, zFar)
        invariant forall r, c :: i <= r < height && 0 <= c < width && (r > i || c >= j) ==> im[r, c] == LinearizedCell(img, r, c, zNear, zFar)
      {
        if infInds[i, j] {
          im[i, j] := Finite(0.0);
        }
        j := j + 1;
      }
      i := i + 1;
    }
  }

  /** The depth conversion as the source performs it: the sentinel mask is
      taken on the flipped image, the image is remapped to [-1, 1] into a new
      array, the unmasked cells are overwritten with the formula, then the
      masked cells with 0.0. The result is the reference depth image. */
  method LinearizeDepth(raw: seq<real>, height: nat, width: nat, zNear: real, zFar: Option<real>)
    returns (depth: seq<seq<Float>>)
    requires |raw| == height * width
    ensures depth == DepthImage(raw, height, width, zNear, zFar)
  {
    var img := Images.FlipRows(Images.Reshape(raw, height, width));
    var infInds := new bool[height, width]((r, c) requires 0 <= r < |img| && 0 <= c < |img[r]| => img[r][c] == Sentinel);
    var im := new Float[height, width]((r, c) requires 0 <= r < |img| && 0 <= c < |img[r]| => RemappedCell(img, r, c));
    LinearizeUnmasked(im, infInds, img, zNear, zFar);
    ZeroMasked(im, infInds, img, zNear, zFar);
    depth := seq(height, r requires 0 <= r < height reads im =>
      seq(width, c requires 0 <= c < width reads im => im[r, c]));
    assert forall r :: 0 <= r < height ==> depth[r] == DepthImage(raw, height, width, zNear, zFar)[r];
  }
}
