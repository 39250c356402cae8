/** Weighted factors and the share of their weight that is earned. */
module CreditFactors {
  /** A value between nothing and everything, and what it weighs. */
  datatype Factor = Factor(value: real, weight: real)

  function Clamp(v: real): (r: real)
    ensures 0.0 <= r <= 1.0
    ensures 0.0 <= v <= 1.0 ==> r == v
  {
    if v < 0.0 then 0.0 else if v > 1.0 then 1.0 else v
  }

  function Times(x: real, y: real): real { x * y }

  function Contribution(f: Factor): real { Times(f.value, f.weight) }

  /** The points earned. */
  function Points(fs: seq<Factor>): real {
    if fs == [] then 0.0 else Points(fs[..|fs| - 1]) + Contribution(fs[|fs| - 1])
  }

  /** The points there were to earn. */
  function Weight(fs: seq<Factor>): real {
    if fs == [] then 0.0 else Weight(fs[..|fs| - 1]) + fs[|fs| - 1].weight
  }

  predicate Sound(f: Factor) { 0.0 <= f.value <= 1.0 && 0.0 <= f.weight }

  function Ratio(points: real, weight: real): real { points / (if weight != 0.0 then weight else 1.0) }

  function Strength(fs: seq<Factor>): real { Clamp(Ratio(Points(fs), Weight(fs))) }

  lemma {:induction false} PointsAdd(a: seq<Factor>, b: seq<Factor>)
    ensures Points(a + b) == Points(a) + Points(b)
    ensures Weight(a + b) == Weight(a) + Weight(b)
    decreases |b|
  {
    if b == [] {
      assert a + b == a;
    } else {
      assert (a + b)[..|a + b| - 1] == a + b[..|b| - 1];
      PointsAdd(a, b[..|b| - 1]);
    }
  }

  lemma PointsOfOne(f: Factor)
    ensures Points([f]) == Contribution(f) && Weight([f]) == f.weight
  {
    assert [f][..0] == [];
  }

  lemma EarnedOfOne(f: Factor)
    requires Sound(f)
    ensures 0.0 <= Contribution(f) <= f.weight
  {
    TimesMonotone(0.0, f.value, f.weight);
    TimesMonotone(f.value, 1.0, f.weight);
  }

  /** Never more is earned than there is to earn. */
  lemma {:induction false} EarnedWithinWeight(fs: seq<Factor>)
    requires forall f :: f in fs ==> Sound(f)
    ensures 0.0 <= Points(fs) <= Weight(fs)
  {
    if fs != [] {
      EarnedWithinWeight(fs[..|fs| - 1]);
      EarnedOfOne(fs[|fs| - 1]);
    }
  }

  // --------------------------------------------------------------------------- comparing shares

  lemma TimesMonotone(x: real, y: real, k: real)
    requires x <= y && k >= 0.0
    ensures Times(x, k) <= Times(y, k) && Times(k, x) <= Times(k, y)
  {
  }

  lemma TimesStrict(x: real, y: real, k: real)
    requires k > 0.0
    ensures x < y <==> Times(x, k) < Times(y, k)
  {
  }

  lemma ShareTimesWeight(p: real, w: real)
    requires w > 0.0
    ensures Times(p / w, w) == p
  {
  }

  lemma Regroup(x: real, y: real, z: real)
    ensures Times(Times(x, y), z) == Times(Times(x, z), y) == Times(x, Times(y, z))
  {
  }

  /** Shares compare as their cross products do. */
  lemma CompareShares(p: real, w: real, q: real, z: real)
    requires w > 0.0 && z > 0.0
    ensures p / w < q / z <==> Times(p, z) < Times(q, w)
  {
    var x, y := p / w, q / z;
    ShareTimesWeight(p, w);
    ShareTimesWeight(q, z);
    TimesStrict(x, y, w);
    TimesStrict(Times(x, w), Times(y, w), z);
    Regroup(y, w, z);
  }

  /** The share of what is earned lies between nothing and everything, so clamping it changes nothing. */
  lemma ShareIsStrength(fs: seq<Factor>)
    requires forall f :: f in fs ==> Sound(f)
    requires Weight(fs) > 0.0
    ensures Strength(fs) == Points(fs) / Weight(fs)
  {
    EarnedWithinWeight(fs);
    var p, w := Points(fs), Weight(fs);
    CompareShares(p, w, 0.0, 1.0);
    CompareShares(w, w, p, w);
    assert Times(p, w) <= Times(w, w) by { TimesMonotone(p, w, w); }
    assert w / w == 1.0;
  }

  lemma SoundShare(before: seq<Factor>, after: seq<Factor>) returns (points: real, weight: real)
    requires forall f :: f in before + after ==> Sound(f)
    requires Weight(before) > 0.0
    ensures points == Points(before + after) && weight == Weight(before + after)
    ensures 0.0 <= points <= weight && weight >= Weight(before) && Strength(before + after) == points / weight
  {
    assert forall f :: f in after ==> f in before + after;
    PointsAdd(before, after);
    EarnedWithinWeight(after);
    EarnedWithinWeight(before + after);
    ShareIsStrength(before + after);
    points, weight := Points(before + after), Weight(before + after);
  }

  /** The strength when others earn `points` of `weight`, and `f` is added to them. */
  function Blend(points: real, weight: real, f: Factor): real
    requires weight > 0.0 && f.weight >= 0.0
  {
    (points + Contribution(f)) / (weight + f.weight)
  }

  /** One factor more. */
  lemma ShareWith(fs: seq<Factor>, f: Factor, points: real, weight: real)
    requires (forall x :: x in fs ==> Sound(x)) && Sound(f)
    requires points == Points(fs) && weight == Weight(fs) && weight > 0.0
    ensures Strength(fs + [f]) == Blend(points, weight, f)
  {
    PointsAdd(fs, [f]);
    PointsOfOne(f);
    BlendIsStrength(fs + [f], f, points, weight);
  }

  lemma BlendIsStrength(fs: seq<Factor>, f: Factor, points: real, weight: real)
    requires forall x :: x in fs ==> Sound(x)
    requires weight > 0.0 && f.weight >= 0.0
    requires Points(fs) == points + Contribution(f) && Weight(fs) == weight + f.weight
    ensures Strength(fs) == Blend(points, weight, f)
  {
    ShareIsStrength(fs);
  }

  /** One factor more, somewhere in the middle. */
  lemma ShareAmid(before: seq<Factor>, f: Factor, after: seq<Factor>, points: real, weight: real)
    requires (forall x :: x in before ==> Sound(x)) && Sound(f) && (forall x :: x in after ==> Sound(x))
    requires points == Points(before + after) && weight == Weight(before + after) && weight > 0.0
    ensures Strength(before + [f] + after) == Blend(points, weight, f)
  {
    PointsAdd(before + [f], after);
    PointsAdd(before, [f]);
    PointsAdd(before, after);
    PointsOfOne(f);
    BlendIsStrength(before + [f] + after, f, points, weight);
  }
}
