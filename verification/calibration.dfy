/**
 * The calibration converter of the vacuum device: a raw ADC code is clamped to
 * [0, 255] and mapped to kPa by piecewise-linear interpolation over a fixed
 * five-point table (VacuumDevice::convertRawToPressure).
 */
module Calibration {
  import opened Wrappers

  /** The (ADC code, kPa) breakpoints, in table order. */
  const Cal: seq<(int, real)> := [(0, 100.0), (48, 80.0), (95, 65.0), (125, 50.0), (255, 0.0)]

  /** A usable table: at least two points, codes strictly increasing, pressures non-increasing. */
  ghost predicate WellFormedTable(t: seq<(int, real)>)
  {
    && |t| >= 2
    && (forall i, j :: 0 <= i < j < |t| ==> t[i].0 < t[j].0)
    && (forall i, j :: 0 <= i < j < |t| ==> t[j].1 <= t[i].1)
  }

  lemma CalWellFormed()
    ensures WellFormedTable(Cal)
    ensures forall i :: 0 <= i < |Cal| ==> 0.0 <= Cal[i].1 <= 100.0
  {
  }

  /** qBound(lo, v, hi). */
  function Clamp(lo: int, v: int, hi: int): (r: int)
    requires lo <= hi
    ensures lo <= r <= hi
    ensures lo <= v <= hi ==> r == v
    ensures v < lo ==> r == lo
    ensures hi < v ==> r == hi
  {
    if v < lo then lo else if hi < v then hi else v
  }

  /**
   * Linear interpolation on one table segment: the point (adc, r) lies on the straight
   * line through (x0, y0) and (x1, y1).
   */
  function Lerp(x0: int, y0: real, x1: int, y1: real, adc: int): (r: real)
    requires x0 < x1
    ensures (r - y0) * (x1 - x0) as real == (adc - x0) as real * (y1 - y0)
  {
    var d := (x1 - x0) as real;
    var t := (adc - x0) as real / d;
    assert t * d == (adc - x0) as real;
    assert (t * (y1 - y0)) * d == (t * d) * (y1 - y0);
    y0 + t * (y1 - y0)
  }

  /** Interpolation hits the segment's end points exactly and stays between them. */
  lemma LerpEnds(x0: int, y0: real, x1: int, y1: real, adc: int)
    requires x0 < x1 && x0 <= adc <= x1 && y1 <= y0
    ensures adc == x0 ==> Lerp(x0, y0, x1, y1, adc) == y0
    ensures adc == x1 ==> Lerp(x0, y0, x1, y1, adc) == y1
    ensures y1 <= Lerp(x0, y0, x1, y1, adc) <= y0
  {
    var d := (x1 - x0) as real;
    var t := (adc - x0) as real / d;
    assert 0.0 <= t <= 1.0;
    assert adc == x1 ==> t == 1.0;
    assert t * (y1 - y0) <= 0.0;
    assert t * (y1 - y0) >= y1 - y0 by {
      assert (1.0 - t) * (y0 - y1) >= 0.0;
    }
  }

  /** On a non-increasing segment a larger code never gives a larger pressure. */
  lemma LerpMonotone(x0: int, y0: real, x1: int, y1: real, a: int, b: int)
    requires x0 < x1 && a <= b && y1 <= y0
    ensures Lerp(x0, y0, x1, y1, b) <= Lerp(x0, y0, x1, y1, a)
  {
    var d := (x1 - x0) as real;
    var ta := (a - x0) as real / d;
    var tb := (b - x0) as real / d;
    assert tb - ta == (b - a) as real / d;
    assert tb - ta >= 0.0;
    assert (tb - ta) * (y0 - y1) >= 0.0;
  }

  /**
   * The table search of the interpolation loop, from segment i onwards: the first
   * segment [x0, x1] holding adc is interpolated; None stands for the NaN fallback.
   */
  function Search(adc: int, i: nat): (r: Option<real>)
    requires i < |Cal|
    ensures i + 1 < |Cal| && Cal[i].0 <= adc <= Cal[|Cal| - 1].0 ==> r.Some?
    ensures r.Some? ==> Cal[|Cal| - 1].1 <= r.value <= Cal[i].1
    decreases |Cal| - i
  {
    CalWellFormed();
    if i + 1 >= |Cal| then None
    else if Cal[i].0 <= adc <= Cal[i + 1].0 then
      LerpEnds(Cal[i].0, Cal[i].1, Cal[i + 1].0, Cal[i + 1].1, adc);
      Some(Lerp(Cal[i].0, Cal[i].1, Cal[i + 1].0, Cal[i + 1].1, adc))
    else Search(adc, i + 1)
  }

  /** VacuumDevice::convertRawToPressure: kPa for a raw code; the NaN fallback never fires. */
  function Convert(adcValue: int): (r: real)
    ensures 0.0 <= r <= 100.0
  {
    CalWellFormed();
    var adc := Clamp(0, adcValue, 255);
    if adc <= Cal[0].0 then Cal[0].1
    else if adc >= Cal[|Cal| - 1].0 then Cal[|Cal| - 1].1
    else
      match Search(adc, 0)
      case Some(p) => p
      case None => assert false; 0.0
  }

  /** Codes below the table clamp to 0 (100 kPa), codes above clamp to 255 (0 kPa). */
  lemma ConvertClamps(v: int)
    ensures v <= 0 ==> Convert(v) == Convert(0) == 100.0
    ensures v >= 255 ==> Convert(v) == Convert(255) == 0.0
  {
  }

  /**
   * Whatever segment [Cal[j].0, Cal[j+1].0] holds adc, the search from segment i <= j
   * returns that segment's interpolation: shared breakpoints agree.
   */
  lemma {:induction false} SearchFindsSegment(adc: int, i: nat, j: nat)
    requires i <= j < |Cal| - 1
    requires Cal[i].0 <= adc
    requires Cal[j].0 <= adc <= Cal[j + 1].0
    ensures Search(adc, i) == Some(Lerp(Cal[j].0, Cal[j].1, Cal[j + 1].0, Cal[j + 1].1, adc))
    decreases j - i
  {
    CalWellFormed();
    if adc <= Cal[i + 1].0 {
      if i < j {
        assert Cal[i + 1].0 <= Cal[j].0;
        assert adc == Cal[i + 1].0 == Cal[j].0;
        assert i + 1 == j;
        LerpEnds(Cal[i].0, Cal[i].1, Cal[i + 1].0, Cal[i + 1].1, adc);
        LerpEnds(Cal[j].0, Cal[j].1, Cal[j + 1].0, Cal[j + 1].1, adc);
      }
    } else {
      SearchFindsSegment(adc, i + 1, j);
    }
  }

  /** For every code in segment j of the table, the result is that segment's interpolation. */
  lemma ConvertOnSegment(adc: int, j: nat)
    requires j < |Cal| - 1
    requires Cal[j].0 <= adc <= Cal[j + 1].0
    ensures Convert(adc) == Lerp(Cal[j].0, Cal[j].1, Cal[j + 1].0, Cal[j + 1].1, adc)
  {
    CalWellFormed();
    LerpEnds(Cal[j].0, Cal[j].1, Cal[j + 1].0, Cal[j + 1].1, adc);
    if 0 < adc < 255 {
      SearchFindsSegment(adc, 0, j);
    }
  }

  /** Every breakpoint code converts to exactly its tabulated pressure. */
  lemma ConvertAtBreakpoints()
    ensures forall j :: 0 <= j < |Cal| ==> Convert(Cal[j].0) == Cal[j].1
    ensures Convert(0) == 100.0 && Convert(48) == 80.0 && Convert(95) == 65.0
    ensures Convert(125) == 50.0 && Convert(255) == 0.0
  {
    CalWellFormed();
    forall j | 0 <= j < |Cal| ensures Convert(Cal[j].0) == Cal[j].1 {
      if j < |Cal| - 1 {
        ConvertOnSegment(Cal[j].0, j);
        LerpEnds(Cal[j].0, Cal[j].1, Cal[j + 1].0, Cal[j + 1].1, Cal[j].0);
      }
    }
  }

  /** The segment of the table that holds an in-range code. */
  function SegmentOf(adc: int): (j: nat)
    requires Cal[0].0 <= adc <= Cal[|Cal| - 1].0
    ensures j < |Cal| - 1 && Cal[j].0 <= adc <= Cal[j + 1].0
  {
    if adc <= Cal[1].0 then 0
    else if adc <= Cal[2].0 then 1
    else if adc <= Cal[3].0 then 2
    else 3
  }

  /** The converter is non-increasing in the raw code, over all integers. */
  lemma ConvertMonotone(a: int, b: int)
    requires a <= b
    ensures Convert(b) <= Convert(a)
  {
    CalWellFormed();
    if a <= 0 {
      ConvertClamps(a);
    } else if b >= 255 {
      ConvertClamps(b);
    } else {
      var ja, jb := SegmentOf(a), SegmentOf(b);
      ConvertOnSegment(a, ja);
      ConvertOnSegment(b, jb);
      if ja == jb {
        LerpMonotone(Cal[ja].0, Cal[ja].1, Cal[ja + 1].0, Cal[ja + 1].1, a, b);
      } else {
        assert ja < jb;
        LerpEnds(Cal[ja].0, Cal[ja].1, Cal[ja + 1].0, Cal[ja + 1].1, a);
        LerpEnds(Cal[jb].0, Cal[jb].1, Cal[jb + 1].0, Cal[jb + 1].1, b);
        assert ja + 1 == jb || ja + 1 < jb;
        assert Cal[jb].1 <= Cal[ja + 1].1;
      }
    }
  }
}
