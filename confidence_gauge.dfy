/** The circular confidence gauge: its colour band, its size presets and the
    arc geometry that fills the ring in proportion to the value. */
module ConfidenceGauge {

  datatype GaugeColor = Success | Warning | Destructive

  /** `getColor`: at least 90 success, at least 70 warning, else destructive. */
  function GetColor(value: real): (c: GaugeColor)
    ensures c == Success <==> value >= 90.0
    ensures c == Destructive <==> value < 70.0
  {
    if value >= 90.0 then Success
    else if value >= 70.0 then Warning
    else Destructive
  }

  /** The three colour bands cover every value, without overlap, and include
      their lower bounds. */
  lemma ColorBands(value: real)
    ensures GetColor(value) == Success <==> value >= 90.0
    ensures GetColor(value) == Warning <==> 70.0 <= value < 90.0
    ensures GetColor(value) == Destructive <==> value < 70.0
  {
  }

  /** The drawing box and the ring's stroke, in pixels. */
  datatype Geometry = Geometry(width: int, height: int, strokeWidth: int)

  /** `getSize`: "sm" and "lg" have presets; "md", the default, and any other
      size get the medium one. */
  function GetSize(size: string): (g: Geometry)
    ensures g.width == g.height
    ensures 0 < g.strokeWidth < g.width
  {
    match size
    case "sm" => Geometry(80, 80, 6)
    case "lg" => Geometry(140, 140, 12)
    case _ => Geometry(100, 100, 8)
  }

  lemma SizePresets(size: string)
    ensures GetSize("sm") == Geometry(80, 80, 6)
    ensures GetSize("lg") == Geometry(140, 140, 12)
    ensures size != "sm" && size != "lg" ==> GetSize(size) == Geometry(100, 100, 8)
    ensures GetSize("md") == Geometry(100, 100, 8)
  {
  }

  /** The ring's radius: half the width left inside the stroke. */
  function Radius(g: Geometry): (r: real)
    ensures r > 0.0 <==> g.strokeWidth < g.width
    ensures 2.0 * r + g.strokeWidth as real == g.width as real
  {
    (g.width - g.strokeWidth) as real / 2.0
  }

  /** Every preset draws a square box holding a ring of positive radius:
      37, 46 and 64 pixels for small, medium and large. */
  lemma PresetRadii(size: string)
    ensures GetSize(size).width == GetSize(size).height
    ensures Radius(GetSize(size)) > 0.0
    ensures Radius(GetSize(size)) ==
              if size == "sm" then 37.0 else if size == "lg" then 64.0 else 46.0
  {
  }

  /** The stroke's dash offset: the part of the ring left undrawn, the
      circumference less the value's percentage of it. The circumference `2 * Math.PI * radius` is kept
      abstract as any positive length. */
  function DashOffset(circumference: real, value: real): (offset: real)
    ensures offset == circumference * (100.0 - value) / 100.0
  {
    circumference - (value / 100.0) * circumference
  }

  /** A positive factor keeps the sign of the other. */
  lemma ScalePreservesSign(c: real, d: real)
    requires c > 0.0
    ensures d >= 0.0 ==> c * d >= 0.0
    ensures d > 0.0 ==> c * d > 0.0
  {
  }

  /** A positive factor keeps strict order. */
  lemma ScaleStrictlyMonotone(c: real, a: real, b: real)
    requires c > 0.0 && a < b
    ensures a * c < b * c
  {
    ScalePreservesSign(c, b - a);
    assert b * c - a * c == c * (b - a);
  }

  /** An empty gauge leaves the whole ring undrawn and a full gauge none of
      it, and no other value does either. */
  lemma DashOffsetEnds(c: real, value: real)
    requires c > 0.0
    ensures DashOffset(c, 0.0) == c
    ensures DashOffset(c, 100.0) == 0.0
    ensures DashOffset(c, value) == c <==> value == 0.0
    ensures DashOffset(c, value) == 0.0 <==> value == 100.0
  {
    if value != 0.0 {
      ScalePreservesSign(c, if value > 0.0 then value else -value);
    }
    if value != 100.0 {
      ScalePreservesSign(c, if value < 100.0 then 100.0 - value else value - 100.0);
    }
  }

  /** For values from 0 to 100 the offset stays within the ring. */
  lemma DashOffsetWithinRing(c: real, value: real)
    requires c > 0.0 && 0.0 <= value <= 100.0
    ensures 0.0 <= DashOffset(c, value) <= c
  {
    ScalePreservesSign(c, 100.0 - value);
    ScalePreservesSign(c, value);
    assert c * (100.0 - value) == c * 100.0 - c * value;
  }

  /** The offset shrinks strictly as the value grows. */
  lemma DashOffsetDecreasing(c: real, value: real, other: real)
    requires c > 0.0 && value < other
    ensures DashOffset(c, other) < DashOffset(c, value)
  {
    ScaleStrictlyMonotone(c, value / 100.0, other / 100.0);
  }

  /** An empty gauge leaves the whole ring undrawn, a full gauge none of it;
      for values from 0 to 100 the offset stays within the ring and shrinks
      as the value grows. */
  lemma DashOffsetRange(circumference: real, value: real, other: real)
    requires circumference > 0.0
    ensures DashOffset(circumference, 0.0) == circumference
    ensures DashOffset(circumference, 100.0) == 0.0
    ensures DashOffset(circumference, value) == circumference <==> value == 0.0
    ensures DashOffset(circumference, value) == 0.0 <==> value == 100.0
    ensures 0.0 <= value <= 100.0 ==> 0.0 <= DashOffset(circumference, value) <= circumference
    ensures value < other ==> DashOffset(circumference, other) < DashOffset(circumference, value)
  {
    DashOffsetEnds(circumference, value);
    if 0.0 <= value <= 100.0 {
      DashOffsetWithinRing(circumference, value);
    }
    if value < other {
      DashOffsetDecreasing(circumference, value, other);
    }
  }
}
