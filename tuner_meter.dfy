/** The cents classification and the clamped meter marker that the three tuner displays share. */
module TunerMeter {
  import opened Numerics

  /** The display colours: the muted foreground, and the in-tune, sharp and flat tints
      (`stage-active`/green, `stage-danger`/red, `stage-warning`/amber). */
  datatype Tint = Muted | Active | Danger | Warning

  /** `|cents| <= 5` is in tune, above that sharp, below `-5` flat. The three cases are exclusive
      and cover every reading; the muted tint is never chosen from the cents alone. */
  function CentsTint(cents: int): (t: Tint)
    ensures t != Muted
    ensures t == Active <==> -5 <= cents <= 5
    ensures t == Danger <==> cents > 5
    ensures t == Warning <==> cents < -5
  {
    if Abs(cents as real) <= 5.0 then Active
    else if cents > 5 then Danger
    else Warning
  }

  /** `Math.max(0, Math.min(100, ((cents + 50) / 100) * 100))`, a percentage of the meter width. */
  function MarkerPosition(cents: int): (p: real)
    ensures 0.0 <= p <= 100.0
    ensures -50 <= cents <= 50 ==> p == (cents + 50) as real
    ensures cents <= -50 ==> p == 0.0
    ensures cents >= 50 ==> p == 100.0
  {
    Clamp(0.0, 100.0, ((cents + 50) as real / 100.0) * 100.0)
  }

  /** The marker moves right as the reading goes sharp: -50 cents at the left edge, 0 in the
      middle, +50 at the right edge. */
  lemma {:induction false} MarkerMonotone(c1: int, c2: int)
    requires c1 <= c2
    ensures MarkerPosition(c1) <= MarkerPosition(c2)
    ensures MarkerPosition(-50) == 0.0 && MarkerPosition(0) == 50.0 && MarkerPosition(50) == 100.0
  {
    var x1 := ((c1 + 50) as real / 100.0) * 100.0;
    var x2 := ((c2 + 50) as real / 100.0) * 100.0;
    assert x1 == (c1 + 50) as real && x2 == (c2 + 50) as real;
    ClampMonotone(0.0, 100.0, x1, x2);
  }
}
