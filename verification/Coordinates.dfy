/** Fixed-point client coordinates and wheel notches of the input worker. */
module Coordinates {
  import opened Outcomes

  const PPM: nat := 1_000_000
  const WHEEL_DELTA: int := 120
  const MAX_I32: nat := 0x7FFF_FFFF
  const MAX_U32: nat := 0xFFFF_FFFF
  const MAX_U64: nat := 0xFFFF_FFFF_FFFF_FFFF

  newtype u32 = x: int | 0 <= x <= 0xFFFF_FFFF
  newtype i32 = x: int | -0x8000_0000 <= x <= 0x7FFF_FFFF

  /** The 64-bit intermediate value. */
  function Scaled(value: u32, extent: u32): (r: nat)
    requires extent != 0 && value as nat <= PPM
    ensures r <= MAX_U64
  {
    assert (extent as nat - 1) * value as nat <= MAX_U32 * PPM by {
      ProductGrows(extent as nat - 1, value as nat, MAX_U32, PPM);
    }
    (extent as nat - 1) * value as nat + PPM / 2
  }

  function PpmCoordinate(value: u32, extent: u32): (r: Result<i32>)
    ensures r.Ok? ==> value as nat <= PPM && extent != 0 && 0 <= r.value as int <= extent as int - 1
    ensures r.Ok? <==> value as nat <= PPM && extent != 0 && Scaled(value, extent) / PPM <= MAX_I32
    ensures r.Err? ==> r.code == CoordinateInvalid
  {
    if value as nat > PPM || extent == 0 then Err(CoordinateInvalid)
    else
      var pixel := Scaled(value, extent) / PPM;
      ScaledWithin(value, extent);
      if pixel > MAX_I32 then Err(CoordinateInvalid) else Ok(pixel as i32)
  }

  lemma ProductGrows(a: nat, b: nat, c: nat, d: nat)
    requires a <= c && b <= d
    ensures a * b <= c * d
  {
    assert a * b <= c * b;
    assert c * b <= c * d;
  }

  lemma ScaledWithin(value: u32, extent: u32)
    requires extent != 0 && value as nat <= PPM
    ensures 0 <= Scaled(value, extent) / PPM <= extent as int - 1
  {
    var last := extent as nat - 1;
    ProductGrows(last, value as nat, last, PPM);
    assert Scaled(value, extent) < (last + 1) * PPM;
  }

  /** Every coordinate of a client area that fits the result type is accepted. */
  lemma SmallExtentsAreAccepted(value: u32, extent: u32)
    requires 0 < extent as nat <= MAX_I32 + 1 && value as nat <= PPM
    ensures PpmCoordinate(value, extent).Ok?
  {
    ScaledWithin(value, extent);
  }

  /** The two ends are exact: ratio zero in every client area that is not empty, ratio one whenever the last pixel
      fits the result type, which is exactly when it is accepted. */
  lemma EndsAreExact(extent: u32)
    requires extent != 0
    ensures PpmCoordinate(0, extent) == Ok(0)
    ensures PpmCoordinate(1_000_000, extent).Ok? <==> extent as nat <= MAX_I32 + 1
    ensures PpmCoordinate(1_000_000, extent).Ok? ==>
              PpmCoordinate(1_000_000, extent).value as int == extent as int - 1
  {
    assert Scaled(0, extent) == PPM / 2;
    assert Scaled(1_000_000, extent) == (extent as nat - 1) * PPM + PPM / 2;
  }

  /** A larger ratio never gives a smaller pixel. */
  lemma CoordinatesAreMonotone(a: u32, b: u32, extent: u32)
    requires a <= b && PpmCoordinate(b, extent).Ok?
    ensures PpmCoordinate(a, extent).Ok?
    ensures PpmCoordinate(a, extent).value <= PpmCoordinate(b, extent).value
  {
    ProductGrows(extent as nat - 1, a as nat, extent as nat - 1, b as nat);
    assert Scaled(a, extent) <= Scaled(b, extent);
    assert Scaled(a, extent) / PPM <= Scaled(b, extent) / PPM;
  }

  /** The pixel is within half a pixel of the true ratio; the exact half goes to the higher pixel. */
  lemma WithinHalfAPixel(value: u32, extent: u32)
    requires PpmCoordinate(value, extent).Ok?
    ensures var exact := (extent as nat - 1) * value as nat;
            var pixel := PpmCoordinate(value, extent).value as int;
            -1_000_000 < 2 * (pixel * 1_000_000 - exact) <= 1_000_000
  {
    var scaled := Scaled(value, extent);
    assert scaled == (scaled / PPM) * PPM + scaled % PPM;
  }

  /** In a client area of up to a million pixels every pixel has a ratio that selects it. */
  lemma EveryPixelIsReachable(pixel: nat, extent: u32) returns (value: u32)
    requires pixel < extent as nat <= PPM
    ensures PpmCoordinate(value, extent) == Ok(pixel as i32)
  {
    var last := extent as nat - 1;
    if last == 0 {
      value := 0;
      EndsAreExact(extent);
    } else {
      var v := (pixel * PPM + last / 2) / last;
      assert last * v <= pixel * PPM + last / 2 < last * v + last;
      assert v <= PPM by {
        ProductGrows(pixel, PPM, last, PPM);
        if v > PPM {
          ProductGrows(last, PPM + 1, last, v);
        }
      }
      value := v as u32;
      var scaled := Scaled(value, extent);
      assert scaled == last * v + PPM / 2;
      assert pixel * PPM <= scaled < (pixel + 1) * PPM;
      assert scaled / PPM == pixel;
    }
  }

  // --------------------------------------------------------- client points

  datatype Point = Point(x: i32, y: i32)

  function BindOptionalClientPoint(x: Option<u32>, y: Option<u32>, source: Option<nat>, width: u32, height: u32)
    : (r: Result<Option<Point>>)
    ensures r.Ok? && r.value.Some? ==>
              && source.Some? && source.value != 0
              && 0 <= r.value.value.x as int < width as int && 0 <= r.value.value.y as int < height as int
    ensures r == Ok(None) <==> x.None? && y.None? && source != Some(0)
  {
    if source == Some(0) then Err(SourceFrameStale)
    else match (x, y)
      case (None, None) => Ok(None)
      case (Some(xPpm), Some(yPpm)) =>
        if source.None? then Err(CoordinateInvalid)
        else (match (PpmCoordinate(xPpm, width), PpmCoordinate(yPpm, height))
              case (Ok(px), Ok(py)) => Ok(Some(Point(px, py)))
              case _ => Err(CoordinateInvalid))
      case _ => Err(CoordinateInvalid)
  }

  /** A point is bound exactly when both ratios are at most one, the area is not empty, both last pixels can be
      written down, and a frame that was captured is named. Each coordinate is the pixel nearest to its own ratio of
      its own extent. */
  lemma PointIsBoundExactly(x: Option<u32>, y: Option<u32>, source: Option<nat>, width: u32, height: u32)
    requires width as nat <= MAX_I32 + 1 && height as nat <= MAX_I32 + 1
    ensures var r := BindOptionalClientPoint(x, y, source, width, height);
            && (r.Ok? && r.value.Some? <==>
                && x.Some? && y.Some? && source.Some? && source.value != 0
                && x.value <= 1_000_000 && y.value <= 1_000_000 && width > 0 && height > 0)
            && (r.Ok? && r.value.Some? ==>
                  && var p := r.value.value;
                     Nearest(p.x as int, width as nat - 1, x.value as nat)
                     && Nearest(p.y as int, height as nat - 1, y.value as nat))
            && (r.Err? ==> r.code == if source == Some(0) then SourceFrameStale else CoordinateInvalid)
  {
    if x.Some? && y.Some? && x.value <= 1_000_000 && y.value <= 1_000_000 && width > 0 && height > 0 {
      SmallExtentsAreAccepted(x.value, width);
      SmallExtentsAreAccepted(y.value, height);
      WithinHalfAPixel(x.value, width);
      WithinHalfAPixel(y.value, height);
    }
  }

  predicate Nearest(pixel: int, last: nat, ratio: nat) {
    -1_000_000 < 2 * (pixel * 1_000_000 - last * ratio) <= 1_000_000
  }

  // ---------------------------------------------------------- wheel notches

  function Signum(delta: i32): int {
    if delta > 0 then 1 else if delta < 0 then -1 else 0
  }

  function Magnitude(delta: i32): nat {
    if delta as int < 0 then -(delta as int) else delta as int
  }

  function WheelNotches(delta: i32): seq<int> {
    seq(Magnitude(delta) / 120, _ => Signum(delta) * WHEEL_DELTA)
  }

  function Sum(notches: seq<int>): int {
    if notches == [] then 0 else Sum(notches[..|notches| - 1]) + notches[|notches| - 1]
  }

  lemma {:induction false} SumOfEqual(notches: seq<int>, notch: int)
    requires forall i :: 0 <= i < |notches| ==> notches[i] == notch
    ensures Sum(notches) == |notches| * notch
    decreases |notches|
  {
    if notches != [] {
      SumOfEqual(notches[..|notches| - 1], notch);
      assert |notches| * notch == (|notches| - 1) * notch + notch;
    }
  }

  /** The notches add up to the delta without its remainder towards zero: to all of it exactly for multiples of
      one notch. */
  lemma NotchesAddUp(delta: i32)
    ensures var sum := Sum(WheelNotches(delta));
            && (sum == delta as int <==> Magnitude(delta) % 120 == 0)
            && -120 < delta as int - sum < 120
            && (delta >= 0 ==> 0 <= sum <= delta as int) && (delta <= 0 ==> delta as int <= sum <= 0)
            && forall i :: 0 <= i < |WheelNotches(delta)| ==> WheelNotches(delta)[i] in {-120, 120}
  {
    SumOfEqual(WheelNotches(delta), Signum(delta) * WHEEL_DELTA);
    var m := Magnitude(delta);
    assert m == (m / 120) * 120 + m % 120;
  }
}
