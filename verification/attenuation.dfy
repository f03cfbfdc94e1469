/** The distance-based audio gain applied to each remote participant. */
module Attenuation {

  /** Squared distances above this are inaudible. */
  const Cutoff: real := 500.0

  /** The numerator of the falloff: the squared distance at which
      `10 / d2` reaches full volume. Anything nearer is clamped to 1. */
  const Reference: real := 10.0

  function Min(a: real, b: real): (m: real)
    ensures m <= a && m <= b
    ensures m == a || m == b
  {
    if a <= b then a else b
  }

  /** The volume given to a participant at squared distance `d2` from the
      camera: 0 past the cutoff, otherwise `Math.min(1, 10 / d2)`. At
      `d2 == 0` JavaScript computes `10 / 0` as Infinity and the minimum is 1;
      the model takes that branch explicitly. */
  function Gain(d2: real): (g: real)
    requires 0.0 <= d2
    ensures 0.0 <= g <= 1.0
    ensures Cutoff < d2 ==> g == 0.0
    ensures d2 <= Reference ==> g == 1.0
    ensures Reference < d2 <= Cutoff ==> g == Reference / d2 && g < 1.0
  {
    if d2 > Cutoff then 0.0
    else if d2 == 0.0 then 1.0
    else QuotientBounds(d2); Min(1.0, Reference / d2)
  }

  /** The facts about `10 / d2` that the gain relies on. */
  lemma QuotientBounds(d2: real)
    requires 0.0 < d2
    ensures 0.0 < Reference / d2
    ensures d2 <= Reference ==> 1.0 <= Reference / d2
    ensures Reference < d2 ==> Reference / d2 < 1.0
  {
    DivisionPositive(Reference, d2);
    if d2 <= Reference {
      DivisionAtLeastOne(Reference, d2);
    } else {
      DivisionBelowOne(Reference, d2);
    }
  }

  lemma DivisionPositive(n: real, d: real)
    requires 0.0 < n && 0.0 < d
    ensures 0.0 < n / d
  {
  }

  lemma DivisionAtLeastOne(n: real, d: real)
    requires 0.0 < d <= n
    ensures 1.0 <= n / d
  {
  }

  lemma DivisionBelowOne(n: real, d: real)
    requires 0.0 < n < d
    ensures n / d < 1.0
  {
    DivisionPositive(d - n, d);
    assert (d - n) / d == d / d - n / d;
    assert d / d == 1.0;
  }

  lemma QuotientAntitone(a: real, b: real)
    requires 0.0 < a <= b
    ensures Reference / b <= Reference / a
  {
  }

  /** Moving away never makes a participant louder, including across the
      hard cutoff. */
  lemma GainNonIncreasing(a: real, b: real)
    requires 0.0 <= a <= b
    ensures Gain(b) <= Gain(a)
  {
    if Reference < a && b <= Cutoff {
      QuotientAntitone(a, b);
    }
  }

  /** Everyone inside the cutoff is heard at no less than 10/500, so the
      cutoff is a jump from 0.02 straight to silence. */
  lemma GainFloorInsideCutoff(d2: real)
    requires 0.0 <= d2 <= Cutoff
    ensures Gain(d2) >= 0.02
  {
    assert Reference == 10.0 && Cutoff == 500.0;
    if Reference < d2 {
      QuotientAntitone(d2, Cutoff);
      assert Gain(d2) == Reference / d2 >= Reference / Cutoff == 0.02;
    }
  }

  /** The worked examples: squared distances 200, 50 and 2 from the viewer,
      the coincident case, and either side of the cutoff. */
  lemma GainExamples()
    ensures Gain(200.0) == 0.05
    ensures Gain(50.0) == 0.2
    ensures Gain(2.0) == 1.0
    ensures Gain(0.0) == 1.0
    ensures Gain(500.0) == 0.02
    ensures Gain(500.5) == 0.0
  {
  }
}
