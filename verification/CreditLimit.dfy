/**
 * The suggested credit limit (backend/app/intelligence/creditworthiness.py), in exact arithmetic: the score is
 * not rounded to two places for display.
 */
module CreditLimit {
  import Common
  import opened CreditFactors

  datatype Band = Low | Moderate | Elevated | High

  datatype Risk = Risk(score: real, band: Band)

  datatype Application = Application(
    requested: int, turnover: Common.Option<int>, years: Common.Option<real>, exposure: int, elsewhere: int,
    references: int, gst: Common.Option<bool>, verified: bool)

  datatype LedgerFacts = LedgerFacts(
    settled: int, meanDays: Common.Option<real>, kept: Common.Option<real>, overdue: int, pastDue: int)

  datatype Blocker = OverdueToYou | LegalStage | HighRisk | NothingRequested

  datatype Recommendation = Strong | Acceptable | Caution | Refer

  datatype Assessment = Assessment(
    recommendation: Recommendation, score: real, limit: int, factors: seq<Factor>, blockers: seq<Blocker>)

  const ROUNDING := 100_000

  // -------------------------------------------------------------------------------- factors

  /** A declared turnover counts when it is given and not zero. */
  predicate Declared(a: Application) { a.turnover.Some? && a.turnover.value != 0 }

  function Monthly(a: Application): real
    requires Declared(a)
  {
    a.turnover.value as real / 12.0
  }

  function RiskFactor(risk: Common.Option<Risk>): seq<Factor> {
    if risk.Some? then [Factor(Clamp(1.0 - risk.value.score / 100.0), 30.0)] else []
  }

  function RecordFactor(l: LedgerFacts): seq<Factor> {
    [Factor(if l.settled != 0 then Clamp(l.settled as real / 12.0) else 0.0, 12.0)]
  }

  function SpeedFactor(l: LedgerFacts): seq<Factor> {
    if l.meanDays.Some? then [Factor(Clamp(1.0 - (l.meanDays.value - 15.0) / 75.0), 10.0)] else []
  }

  function PromiseFactor(l: LedgerFacts): seq<Factor> {
    if l.kept.Some? then [Factor(Clamp(l.kept.value), 8.0)] else []
  }

  function CoverOf(monthly: real, requested: int): real {
    Clamp(monthly / Common.Max(requested, 1) as real / 4.0)
  }

  function Cover(a: Application): real
    requires Declared(a)
  {
    CoverOf(Monthly(a), a.requested)
  }

  function TurnoverWeight(a: Application): real { if a.verified then 14.0 else 7.0 }

  function Turnover(a: Application): Factor
    requires Declared(a)
  {
    Factor(Cover(a), TurnoverWeight(a))
  }

  function TurnoverFactor(a: Application): seq<Factor> { if Declared(a) then [Turnover(a)] else [] }

  function DeclaredOf(years: Common.Option<real>, references: int, gst: Common.Option<bool>): seq<Factor> {
    (if years.Some? then [Factor(Clamp(years.value / 5.0), 10.0)] else []) +
    (if references != 0 then [Factor(Clamp(references as real / 3.0), 6.0)] else []) +
    (if gst.Some? then [Factor(if gst.value then 1.0 else 0.0, 6.0)] else [])
  }

  function DeclaredFactors(a: Application): seq<Factor> { DeclaredOf(a.years, a.references, a.gst) }

  function Debts(a: Application): int { a.exposure + a.elsewhere }

  function Strain(monthly: real, debts: int): real { debts as real / (if monthly > 1.0 then monthly else 1.0) }

  /** How lightly debts weigh, between 0 and 1. */
  function Lightness(monthly: real, debts: int): real { Clamp(1.0 - Strain(monthly, debts) / 3.0) }

  function DebtFactor(monthly: real, debts: int): Factor { Factor(Lightness(monthly, debts), 10.0) }

  function ExposureFactor(a: Application): seq<Factor> {
    if Declared(a) && Debts(a) != 0 then [DebtFactor(Monthly(a), Debts(a))] else []
  }

  function Before(l: LedgerFacts, risk: Common.Option<Risk>): seq<Factor> {
    RiskFactor(risk) + RecordFactor(l) + SpeedFactor(l) + PromiseFactor(l)
  }

  function After(a: Application): seq<Factor> { DeclaredFactors(a) + ExposureFactor(a) }

  function Factors(a: Application, l: LedgerFacts, risk: Common.Option<Risk>): seq<Factor> {
    Before(l, risk) + TurnoverFactor(a) + After(a)
  }

  function Score(a: Application, l: LedgerFacts, risk: Common.Option<Risk>): real {
    Strength(Factors(a, l, risk)) * 100.0
  }

  // ------------------------------------------------------------------------- blockers and limit

  /** The fact each blocker stands for. */
  predicate Holds(b: Blocker, a: Application, l: LedgerFacts, risk: Common.Option<Risk>) {
    match b
    case OverdueToYou => l.overdue > 0
    case LegalStage => l.pastDue >= 90
    case HighRisk => risk.Some? && risk.value.band.High?
    case NothingRequested => a.requested <= 0
  }

  predicate Blocked(a: Application, l: LedgerFacts, risk: Common.Option<Risk>) {
    || Holds(OverdueToYou, a, l, risk)
    || Holds(LegalStage, a, l, risk)
    || Holds(HighRisk, a, l, risk)
    || Holds(NothingRequested, a, l, risk)
  }

  lemma HeldIsBlocked(b: Blocker, a: Application, l: LedgerFacts, risk: Common.Option<Risk>)
    requires Holds(b, a, l, risk)
    ensures Blocked(a, l, risk)
  {
  }

  function Order(b: Blocker): nat {
    match b case OverdueToYou => 0 case LegalStage => 1 case HighRisk => 2 case NothingRequested => 3
  }

  function RiskMultiplier(risk: Common.Option<Risk>): real {
    if risk.None? then 1.0
    else
      match risk.value.band
      case Low => 1.0
      case Moderate => 0.6
      case Elevated => 0.3
      case High => 0.0
  }

  function Vintage(years: Common.Option<real>): real {
    if years.None? then 0.7 else if years.value < 1.0 then 0.5 else if years.value < 3.0 then 0.8 else 1.0
  }

  function Base(a: Application): real
    requires Declared(a)
  {
    Times(Monthly(a) * 0.25, if a.verified then 1.0 else 0.6)
  }

  /** Towards zero, as `int()` does. */
  function Truncated(x: real): int { if x >= 0.0 then x.Floor else -((-x).Floor) }

  function RoundedDown(n: int): int { n - n % ROUNDING }

  /** What is left of a raw limit after what is already owed, within what was asked for. */
  function Room(raw: real, exposure: int, requested: int): int {
    Common.Min(Common.Max(0, Truncated(raw) - exposure), requested)
  }

  /** The same in thousands of rupees. */
  function Ceiling(raw: real, exposure: int, requested: int): int { RoundedDown(Room(raw, exposure, requested)) }

  function Raw(a: Application, strength: real, risk: Common.Option<Risk>): real
    requires Declared(a)
  {
    Times(Times(Times(Base(a), strength), RiskMultiplier(risk)), Vintage(a.years))
  }

  function Limit(a: Application, l: LedgerFacts, risk: Common.Option<Risk>): int {
    if Blocked(a, l, risk) || !Declared(a) then 0
    else Ceiling(Raw(a, Strength(Factors(a, l, risk)), risk), a.exposure, a.requested)
  }

  function Recommended(blocked: bool, score: real): Recommendation {
    if blocked then Refer
    else if score >= 70.0 then Strong
    else if score >= 50.0 then Acceptable
    else if score >= 30.0 then Caution
    else Refer
  }

  /** Cuts the limit down step by step: to the largest number of whole thousands of rupees that there is room for. */
  method SuggestLimit(a: Application, strength: real, risk: Common.Option<Risk>) returns (suggested: int)
    requires Declared(a)
    ensures suggested % ROUNDING == 0
    ensures suggested <= Room(Raw(a, strength, risk), a.exposure, a.requested) < suggested + ROUNDING
    ensures a.requested > 0 ==> 0 <= suggested <= a.requested
    ensures a.exposure >= 0 && a.requested > 0 && Raw(a, strength, risk) <= a.exposure as real ==> suggested == 0
  {
    var base := Monthly(a) * 0.25;
    if !a.verified {
      base := base * 0.6;
    }
    assert base == Base(a);
    suggested := Truncated(Times(Times(Times(base, strength), RiskMultiplier(risk)), Vintage(a.years)));
    suggested := Common.Max(0, suggested - a.exposure);
    suggested := Common.Min(suggested, a.requested);
    suggested := suggested - suggested % ROUNDING;
  }

  /** Exactly the blockers whose facts hold, each once and in their order. */
  method CollectBlockers(a: Application, l: LedgerFacts, risk: Common.Option<Risk>) returns (blockers: seq<Blocker>)
    ensures forall b :: b in blockers <==> Holds(b, a, l, risk)
    ensures OverdueToYou in blockers <==> l.overdue > 0
    ensures LegalStage in blockers <==> l.pastDue >= 90
    ensures HighRisk in blockers <==> risk.Some? && risk.value.band == High
    ensures NothingRequested in blockers <==> a.requested <= 0
    ensures forall i, j :: 0 <= i < j < |blockers| ==> Order(blockers[i]) < Order(blockers[j])
    ensures blockers != [] <==> Blocked(a, l, risk)
  {
    blockers := [];
    if l.overdue > 0 { blockers := blockers + [OverdueToYou]; }
    if l.pastDue >= 90 { blockers := blockers + [LegalStage]; }
    if risk.Some? && risk.value.band.High? { blockers := blockers + [HighRisk]; }
    if a.requested <= 0 { blockers := blockers + [NothingRequested]; }
    if blockers != [] { HeldIsBlocked(blockers[0], a, l, risk); }
  }

  method CollectFactors(a: Application, l: LedgerFacts, risk: Common.Option<Risk>) returns (factors: seq<Factor>)
    ensures factors == Factors(a, l, risk)
  {
    factors := RiskFactor(risk);
    factors := factors + RecordFactor(l);
    factors := factors + SpeedFactor(l);
    factors := factors + PromiseFactor(l);
    factors := factors + TurnoverFactor(a);
    factors := factors + After(a);
  }

  /**
   * The whole assessment. The score is between 0 and 100; a blocker means REFER and no limit, and without one the
   * recommendation follows the score; the limit is what the lemmas below are about.
   */
  method Assess(a: Application, l: LedgerFacts, risk: Common.Option<Risk>) returns (r: Assessment)
    ensures 0.0 <= r.score <= 100.0 && r.score == Score(a, l, risk)
    ensures OverdueToYou in r.blockers <==> l.overdue > 0
    ensures LegalStage in r.blockers <==> l.pastDue >= 90
    ensures HighRisk in r.blockers <==> risk.Some? && risk.value.band == High
    ensures NothingRequested in r.blockers <==> a.requested <= 0
    ensures r.blockers != [] ==> r.recommendation == Refer && r.limit == 0
    ensures r.blockers == [] ==>
              && (r.recommendation == Strong <==> r.score >= 70.0)
              && (r.recommendation == Acceptable <==> 50.0 <= r.score < 70.0)
              && (r.recommendation == Caution <==> 30.0 <= r.score < 50.0)
    ensures 0 <= r.limit <= Common.Max(0, a.requested) && r.limit % ROUNDING == 0
    ensures r.limit == Limit(a, l, risk)
  {
    var factors := CollectFactors(a, l, risk);
    var strength := Strength(factors);
    var blockers := CollectBlockers(a, l, risk);
    var suggested := 0;
    if Declared(a) && a.requested > 0 {
      suggested := SuggestLimit(a, strength, risk);
      LargestIsUnique(suggested, Room(Raw(a, strength, risk), a.exposure, a.requested));
    }
    if blockers != [] {
      suggested := 0;
    }
    var score := strength * 100.0;
    r := Assessment(Recommended(blockers != [], score), score, suggested, factors, blockers);
  }

  /** Only one multiple is the largest within a bound. */
  lemma LargestIsUnique(n: int, room: int)
    requires n % ROUNDING == 0 && n <= room < n + ROUNDING
    ensures n == RoundedDown(room)
  {
  }

  // ------------------------------------------------------------------------- by the columns

  /** A share that is nothing up to `none`, everything from `full` on, and in proportion between them. */
  ghost predicate Rises(share: real, x: real, none: real, full: real)
    requires none < full
  {
    && (x <= none ==> share == 0.0) && (x >= full ==> share == 1.0)
    && (none < x < full ==> share * (full - none) == x - none)
  }

  /** One that is everything up to `full`, and nothing from `none` on. */
  ghost predicate Falls(share: real, x: real, full: real, none: real)
    requires full < none
  {
    && (x <= full ==> share == 1.0) && (x >= none ==> share == 0.0)
    && (full < x < none ==> share * (none - full) == none - x)
  }

  /** What your own books earn: thirty points for no recovery risk, twelve for twelve settled invoices, ten for paying
      within fifteen days, falling to none at ninety, and eight for promises kept. */
  lemma OwnFactorsSay(l: LedgerFacts, risk: Common.Option<Risk>)
    ensures if risk.None? then RiskFactor(risk) == []
            else |RiskFactor(risk)| == 1 && RiskFactor(risk)[0].weight == 30.0
                 && Falls(RiskFactor(risk)[0].value, risk.value.score, 0.0, 100.0)
    ensures |RecordFactor(l)| == 1 && RecordFactor(l)[0].weight == 12.0
            && Rises(RecordFactor(l)[0].value, l.settled as real, 0.0, 12.0)
    ensures if l.meanDays.None? then SpeedFactor(l) == []
            else |SpeedFactor(l)| == 1 && SpeedFactor(l)[0].weight == 10.0
                 && Falls(SpeedFactor(l)[0].value, l.meanDays.value, 15.0, 90.0)
    ensures if l.kept.None? then PromiseFactor(l) == []
            else |PromiseFactor(l)| == 1 && PromiseFactor(l)[0].weight == 8.0
                 && Rises(PromiseFactor(l)[0].value, l.kept.value, 0.0, 1.0)
  {
  }

  /** What is declared earns: ten points for five years of trading, six for three references, six for a registration. */
  lemma DeclaredFactorsSay(years: Common.Option<real>, references: int, gst: Common.Option<bool>)
    ensures var fs := DeclaredOf(years, references, gst);
            && |fs| ==
               (if years.Some? then 1 else 0) + (if references != 0 then 1 else 0) + (if gst.Some? then 1 else 0)
            && (years.Some? ==> fs[0].weight == 10.0 && Rises(fs[0].value, years.value, 0.0, 5.0))
            && (references != 0 ==>
                  var k := if years.Some? then 1 else 0;
                  fs[k].weight == 6.0 && Rises(fs[k].value, references as real, 0.0, 3.0))
            && (gst.Some? ==> fs[|fs| - 1].weight == 6.0 && fs[|fs| - 1].value == if gst.value then 1.0 else 0.0)
  {
  }

  /** A declared turnover earns fourteen points verified and seven unverified when a month of it is four times what is
      asked for; and debts of nothing keep ten points that debts of three months' turnover lose. */
  lemma TurnoverFactorsSay(a: Application)
    ensures a.turnover.None? || a.turnover.value == 0 ==> TurnoverFactor(a) == [] && ExposureFactor(a) == []
    ensures a.turnover.Some? && a.turnover.value != 0 ==>
              var monthly := a.turnover.value as real / 12.0;
              && |TurnoverFactor(a)| == 1
              && TurnoverFactor(a)[0].weight == (if a.verified then 14.0 else 7.0)
              && (a.requested > 0 ==> Rises(TurnoverFactor(a)[0].value, monthly / a.requested as real, 0.0, 4.0))
              && (a.requested <= 0 ==> Rises(TurnoverFactor(a)[0].value, monthly, 0.0, 4.0))
              && (a.exposure + a.elsewhere == 0 ==> ExposureFactor(a) == [])
              && (a.exposure + a.elsewhere != 0 ==>
                    && |ExposureFactor(a)| == 1 && ExposureFactor(a)[0].weight == 10.0
                    && Falls(ExposureFactor(a)[0].value,
                             (a.exposure + a.elsewhere) as real / (if monthly > 1.0 then monthly else 1.0), 0.0, 3.0))
  {
  }

  /** The discounts on the opening exposure, a quarter of a month's turnover. */
  lemma DiscountsSay(a: Application, risk: Common.Option<Risk>)
    requires a.turnover.Some? && a.turnover.value != 0
    ensures Base(a) == a.turnover.value as real / 48.0 * if a.verified then 1.0 else 0.6
    ensures RiskMultiplier(risk) == if risk.None? || risk.value.band == Low then 1.0
                                    else if risk.value.band == Moderate then 0.6
                                    else if risk.value.band == Elevated then 0.3
                                    else 0.0
    ensures a.years.None? ==> Vintage(a.years) == 0.7
    ensures a.years.Some? && a.years.value < 1.0 ==> Vintage(a.years) == 0.5
    ensures a.years.Some? && 1.0 <= a.years.value < 3.0 ==> Vintage(a.years) == 0.8
    ensures a.years.Some? && a.years.value >= 3.0 ==> Vintage(a.years) == 1.0
  {
  }

  /** Towards zero. */
  lemma TruncatedSays(x: real)
    ensures x >= 0.0 ==> Truncated(x) as real <= x < Truncated(x) as real + 1.0
    ensures x < 0.0 ==> Truncated(x) as real - 1.0 < x <= Truncated(x) as real
  {
  }

  lemma FactorsAreSound(a: Application, l: LedgerFacts, risk: Common.Option<Risk>)
    ensures forall f :: f in Factors(a, l, risk) ==> Sound(f)
    ensures Weight(Factors(a, l, risk)) >= 12.0
  {
    BeforeIsSound(l, risk);
    AfterIsSound(a);
    assert forall f :: f in TurnoverFactor(a) ==> Sound(f);
    PointsAdd(Before(l, risk) + TurnoverFactor(a), After(a));
    PointsAdd(Before(l, risk), TurnoverFactor(a));
    EarnedWithinWeight(TurnoverFactor(a));
    EarnedWithinWeight(After(a));
  }

  /** The score is the share of the points there were to earn, in hundredths. */
  lemma ScoreSays(a: Application, l: LedgerFacts, risk: Common.Option<Risk>)
    ensures Weight(Factors(a, l, risk)) >= 12.0
    ensures Score(a, l, risk) == Points(Factors(a, l, risk)) / Weight(Factors(a, l, risk)) * 100.0
  {
    FactorsAreSound(a, l, risk);
    ShareIsStrength(Factors(a, l, risk));
  }

  /** The limit without a blocker: the largest number of whole thousands of rupees within what is asked for, and within
      the discounted exposure less what is owed to you already; nothing when that leaves no room. */
  lemma LimitSays(a: Application, l: LedgerFacts, risk: Common.Option<Risk>)
    requires !Blocked(a, l, risk) && a.turnover.Some? && a.turnover.value != 0
    ensures var raw := Times(Times(Times(Base(a), Score(a, l, risk) / 100.0), RiskMultiplier(risk)), Vintage(a.years));
            var left := Truncated(raw) - a.exposure;
            && Limit(a, l, risk) % 100_000 == 0 && Limit(a, l, risk) >= 0
            && (left < 0 ==> Limit(a, l, risk) == 0)
            && (left >= 0 ==> Limit(a, l, risk) <= left && Limit(a, l, risk) <= a.requested
                              && (Limit(a, l, risk) + 100_000 > left || Limit(a, l, risk) + 100_000 > a.requested))
  {
    assert Score(a, l, risk) / 100.0 == Strength(Factors(a, l, risk));
    assert !Holds(NothingRequested, a, l, risk);
  }

  // ----------------------------------------------------------------------- the limit as granted

  lemma RoundedDownMonotone(m: int, n: int)
    requires m <= n
    ensures RoundedDown(m) <= RoundedDown(n)
  {
  }

  lemma TruncatedMonotone(x: real, y: real)
    requires x <= y
    ensures Truncated(x) <= Truncated(y)
  {
  }

  lemma CeilingMonotone(x: real, y: real, exposure: int, more: int, requested: int)
    requires x <= y && exposure <= more
    ensures Ceiling(x, more, requested) <= Ceiling(y, exposure, requested)
  {
    TruncatedMonotone(x, y);
    RoundedDownMonotone(Common.Min(Common.Max(0, Truncated(x) - more), requested),
                        Common.Min(Common.Max(0, Truncated(y) - exposure), requested));
  }

  lemma CeilingWithin(raw: real, exposure: int, requested: int)
    requires requested > 0
    ensures 0 <= Ceiling(raw, exposure, requested) <= requested && Ceiling(raw, exposure, requested) % ROUNDING == 0
  {
  }

  /** Between nothing and what was asked for, in whole thousands of rupees, and nothing with any blocker. */
  lemma LimitIsWithinBounds(a: Application, l: LedgerFacts, risk: Common.Option<Risk>)
    ensures 0 <= Limit(a, l, risk) <= Common.Max(0, a.requested)
    ensures Limit(a, l, risk) % ROUNDING == 0
    ensures l.overdue > 0 || l.pastDue >= 90 || (risk.Some? && risk.value.band.High?) || a.requested <= 0 ==>
              Limit(a, l, risk) == 0
  {
    if Declared(a) && a.requested > 0 {
      CeilingWithin(Raw(a, Strength(Factors(a, l, risk)), risk), a.exposure, a.requested);
    }
  }

  // ------------------------------------------------------------------------- the other factors

  /** All factors but the declared turnover. */
  function Rest(a: Application, l: LedgerFacts, risk: Common.Option<Risk>): seq<Factor> { Before(l, risk) + After(a) }

  lemma ListIsSound(fs: seq<Factor>, f: Factor, gs: seq<Factor>)
    requires (forall x :: x in fs ==> Sound(x)) && Sound(f) && (forall x :: x in gs ==> Sound(x))
    ensures forall x :: x in fs + [f] + gs ==> Sound(x)
    ensures f.weight <= Weight(fs + [f] + gs)
  {
    PointsAdd(fs + [f], gs);
    PointsAdd(fs, [f]);
    PointsOfOne(f);
    EarnedWithinWeight(fs);
    EarnedWithinWeight(gs);
  }

  lemma BeforeIsSound(l: LedgerFacts, risk: Common.Option<Risk>)
    ensures forall f :: f in Before(l, risk) ==> Sound(f)
    ensures Weight(Before(l, risk)) >= 12.0
  {
    var first, last := RiskFactor(risk), SpeedFactor(l) + PromiseFactor(l);
    assert Before(l, risk) == first + [RecordFactor(l)[0]] + last;
    ListIsSound(first, RecordFactor(l)[0], last);
  }

  lemma AfterIsSound(a: Application)
    ensures forall f :: f in After(a) ==> Sound(f)
  {
  }

  lemma RestIsSound(a: Application, l: LedgerFacts, risk: Common.Option<Risk>)
    ensures forall f :: f in Rest(a, l, risk) ==> Sound(f)
    ensures Weight(Rest(a, l, risk)) >= 12.0
    ensures 0.0 <= Points(Rest(a, l, risk)) <= Weight(Rest(a, l, risk))
  {
    BeforeIsSound(l, risk);
    AfterIsSound(a);
    PointsAdd(Before(l, risk), After(a));
    EarnedWithinWeight(After(a));
    EarnedWithinWeight(Rest(a, l, risk));
  }

  lemma AroundTurnover(a: Application, l: LedgerFacts, risk: Common.Option<Risk>)
    requires Declared(a)
    ensures Factors(a, l, risk) == Before(l, risk) + [Turnover(a)] + After(a)
  {
  }

  lemma WithTurnover(a: Application, l: LedgerFacts, risk: Common.Option<Risk>, points: real, weight: real)
    requires Declared(a) && points == Points(Rest(a, l, risk)) && weight == Weight(Rest(a, l, risk)) && weight >= 12.0
    ensures Strength(Factors(a, l, risk)) == Blend(points, weight, Turnover(a))
  {
    AroundTurnover(a, l, risk);
    BeforeIsSound(l, risk);
    AfterIsSound(a);
    ShareAmid(Before(l, risk), Turnover(a), After(a), points, weight);
  }

  lemma VerificationIsElsewhere(a: Application, b: bool, l: LedgerFacts, risk: Common.Option<Risk>)
    ensures Rest(a.(verified := b), l, risk) == Rest(a, l, risk)
    ensures Declared(a) ==> Cover(a.(verified := b)) == Cover(a)
  {
  }

  lemma BlendFor(a: Application, b: bool, l: LedgerFacts, risk: Common.Option<Risk>, points: real, weight: real)
    requires Declared(a) && points == Points(Rest(a, l, risk)) && weight == Weight(Rest(a, l, risk)) && weight >= 12.0
    ensures Strength(Factors(a.(verified := b), l, risk)) ==
            Blend(points, weight, Factor(Cover(a), if b then 14.0 else 7.0))
  {
    VerificationIsElsewhere(a, b, l, risk);
    WithTurnover(a.(verified := b), l, risk, points, weight);
  }

  lemma RestShare(a: Application, l: LedgerFacts, risk: Common.Option<Risk>) returns (points: real, weight: real)
    ensures points == Points(Rest(a, l, risk)) && weight == Weight(Rest(a, l, risk))
    ensures 0.0 <= points <= weight && weight >= 12.0 && Strength(Rest(a, l, risk)) == points / weight
  {
    points, weight := Points(Rest(a, l, risk)), Weight(Rest(a, l, risk));
    RestIsSound(a, l, risk);
    ShareIsStrength(Rest(a, l, risk));
  }

  /** What the other factors earn, which does not depend on whether the turnover is verified. */
  lemma OtherFactors(a: Application, l: LedgerFacts, risk: Common.Option<Risk>) returns (points: real, weight: real)
    requires Declared(a)
    ensures 0.0 <= points <= weight && weight >= 12.0
    ensures Strength(Factors(Unverified(a), l, risk)) == Blend(points, weight, Factor(Cover(a), 7.0))
    ensures Strength(Factors(Verified(a), l, risk)) == Blend(points, weight, Factor(Cover(a), 14.0))
    ensures Strength(Rest(a, l, risk)) == points / weight
  {
    points, weight := RestShare(a, l, risk);
    BlendFor(a, false, l, risk, points, weight);
    BlendFor(a, true, l, risk, points, weight);
  }

  // --------------------------------------------------------------------- an unverified turnover

  function Unverified(a: Application): Application { a.(verified := false) }

  function Verified(a: Application): Application { a.(verified := true) }

  lemma CrossVerified(points: real, weight: real, cover: real)
    ensures Times(points + Times(cover, 14.0), weight + 7.0)
            == Times(points, weight) + 7.0 * points + 14.0 * Times(cover, weight) + 98.0 * cover
  {
  }

  lemma CrossUnverified(points: real, weight: real, cover: real)
    ensures Times(points + Times(cover, 7.0), weight + 14.0)
            == Times(points, weight) + 14.0 * points + 7.0 * Times(cover, weight) + 98.0 * cover
  {
  }

  lemma Discount(p: real, w: real)
    requires w > 0.0
    ensures (0.6 * p) / w == 0.6 * (p / w)
  {
  }

  lemma DiscountInside(p: real, w: real)
    ensures Times(0.6 * p, w) == 0.6 * Times(p, w)
  {
  }

  /** Halving the weight never raises the strength by more than the discount takes back. */
  lemma DiscountOutweighs(points: real, weight: real, cover: real)
    requires 0.0 <= points <= weight && weight >= 12.0 && 0.0 <= cover
    ensures 0.6 * Blend(points, weight, Factor(cover, 7.0)) <= Blend(points, weight, Factor(cover, 14.0))
  {
    var p, q := points + Times(cover, 14.0), points + Times(cover, 7.0);
    CrossVerified(points, weight, cover);
    CrossUnverified(points, weight, cover);
    DiscountInside(q, weight + 14.0);
    TimesMonotone(12.0, weight, points);
    TimesMonotone(0.0, weight, cover);
    CompareShares(p, weight + 14.0, 0.6 * q, weight + 7.0);
    Discount(q, weight + 7.0);
  }

  lemma DiscountedStrength(a: Application, l: LedgerFacts, risk: Common.Option<Risk>)
    requires Declared(a)
    ensures 0.6 * Strength(Factors(Unverified(a), l, risk)) <= Strength(Factors(Verified(a), l, risk))
  {
    var points, weight := OtherFactors(a, l, risk);
    DiscountOutweighs(points, weight, Cover(a));
  }

  lemma RawFollowsStrength(a: Application, b: Application, s: real, t: real, risk: Common.Option<Risk>)
    requires Declared(a) && Declared(b) && a.years == b.years && Times(Base(a), s) <= Times(Base(b), t)
    ensures Raw(a, s, risk) <= Raw(b, t, risk)
  {
    TimesMonotone(Times(Base(a), s), Times(Base(b), t), RiskMultiplier(risk));
    TimesMonotone(Times(Times(Base(a), s), RiskMultiplier(risk)),
                  Times(Times(Base(b), t), RiskMultiplier(risk)), Vintage(a.years));
  }

  lemma NegativeRaw(a: Application, strength: real, risk: Common.Option<Risk>)
    requires Declared(a) && a.turnover.value < 0 && strength >= 0.0
    ensures Raw(a, strength, risk) <= 0.0
  {
    var x := Times(Base(a), strength);
    TimesMonotone(Monthly(a) * 0.25, 0.0, if a.verified then 1.0 else 0.6);
    TimesMonotone(Base(a), 0.0, strength);
    TimesMonotone(x, 0.0, RiskMultiplier(risk));
    TimesMonotone(Times(x, RiskMultiplier(risk)), 0.0, Vintage(a.years));
  }

  lemma NothingLeft(raw: real, exposure: int, requested: int)
    requires raw <= 0.0 && exposure >= 0 && requested > 0
    ensures Ceiling(raw, exposure, requested) == 0
  {
  }

  /** A negative turnover buys nothing. */
  lemma NegativeBuysNothing(a: Application, l: LedgerFacts, risk: Common.Option<Risk>)
    requires Declared(a) && a.turnover.value < 0 && a.exposure >= 0
    ensures Limit(a, l, risk) == 0
  {
    var strength := Strength(Factors(a, l, risk));
    NegativeRaw(a, strength, risk);
    if a.requested > 0 { NothingLeft(Raw(a, strength, risk), a.exposure, a.requested); }
  }

  lemma DiscountedBase(a: Application, s: real, t: real)
    requires Declared(a) && a.turnover.value >= 0 && 0.6 * s <= t
    ensures Times(Base(Unverified(a)), s) <= Times(Base(Verified(a)), t)
  {
    var m := Monthly(a) * 0.25;
    Regroup(m, 0.6, s);
    TimesMonotone(Times(0.6, s), t, m);
    assert Base(Verified(a)) == m && Base(Unverified(a)) == Times(m, 0.6);
  }

  lemma LimitFollowsRaw(a: Application, b: Application, l: LedgerFacts, risk: Common.Option<Risk>, s: real, t: real)
    requires Declared(a) && Declared(b) && a.requested == b.requested && b.exposure <= a.exposure
    requires s == Strength(Factors(a, l, risk)) && t == Strength(Factors(b, l, risk))
    requires Raw(a, s, risk) <= Raw(b, t, risk)
    ensures Limit(a, l, risk) <= Limit(b, l, risk)
  {
    CeilingMonotone(Raw(a, s, risk), Raw(b, t, risk), b.exposure, a.exposure, a.requested);
  }

  /**
   * The same application never gets more with its turnover unverified than verified, although its score may well
   * be higher: see the next lemma.
   */
  lemma UnverifiedNeverBuysMore(a: Application, l: LedgerFacts, risk: Common.Option<Risk>)
    requires a.exposure >= 0
    ensures Limit(Unverified(a), l, risk) <= Limit(Verified(a), l, risk)
  {
    var u, v := Unverified(a), Verified(a);
    if Declared(a) && a.turnover.value < 0 {
      NegativeBuysNothing(u, l, risk);
      NegativeBuysNothing(v, l, risk);
    } else if Declared(a) {
      var s, t := Strength(Factors(u, l, risk)), Strength(Factors(v, l, risk));
      DiscountedStrength(a, l, risk);
      DiscountedBase(a, s, t);
      RawFollowsStrength(u, v, s, t, risk);
      LimitFollowsRaw(u, v, l, risk, s, t);
    }
  }

  /** The score is higher unverified exactly when the turnover covers less than the other factors earn on average. */
  lemma UnverifiedScoresHigherExactly(a: Application, l: LedgerFacts, risk: Common.Option<Risk>)
    requires Declared(a)
    ensures Score(Unverified(a), l, risk) > Score(Verified(a), l, risk) <==> Cover(a) < Strength(Rest(a, l, risk))
  {
    var points, weight := OtherFactors(a, l, risk);
    HalvedWeightExactly(points, weight, Cover(a));
  }

  lemma HalvedWeightExactly(points: real, weight: real, cover: real)
    requires weight >= 12.0
    ensures Blend(points, weight, Factor(cover, 14.0)) < Blend(points, weight, Factor(cover, 7.0)) <==>
            cover < points / weight
  {
    CrossVerified(points, weight, cover);
    CrossUnverified(points, weight, cover);
    CompareShares(points + Times(cover, 14.0), weight + 14.0, points + Times(cover, 7.0), weight + 7.0);
    CompareShares(cover, 1.0, points, weight);
  }

  // ------------------------------------------------------------------------------ owing already

  /** All factors but what is already owed. */
  function Unencumbered(a: Application, l: LedgerFacts, risk: Common.Option<Risk>): seq<Factor> {
    Before(l, risk) + TurnoverFactor(a) + DeclaredFactors(a)
  }

  function Owing(a: Application, exposure: int, elsewhere: int): Application {
    a.(exposure := exposure, elsewhere := elsewhere)
  }

  lemma DeclaredAreSound(a: Application)
    ensures forall f :: f in TurnoverFactor(a) + DeclaredFactors(a) ==> Sound(f)
  {
  }

  lemma UnencumberedIsSound(a: Application, l: LedgerFacts, risk: Common.Option<Risk>)
    ensures Unencumbered(a, l, risk) == Before(l, risk) + (TurnoverFactor(a) + DeclaredFactors(a))
    ensures forall f :: f in Unencumbered(a, l, risk) ==> Sound(f)
  {
    BeforeIsSound(l, risk);
    DeclaredAreSound(a);
  }

  lemma UnencumberedShare(a: Application, l: LedgerFacts, risk: Common.Option<Risk>)
    returns (points: real, weight: real)
    ensures points == Points(Unencumbered(a, l, risk)) && weight == Weight(Unencumbered(a, l, risk))
    ensures 0.0 <= points <= weight && weight >= 12.0 && Strength(Unencumbered(a, l, risk)) == points / weight
  {
    UnencumberedIsSound(a, l, risk);
    BeforeIsSound(l, risk);
    points, weight := SoundShare(Before(l, risk), TurnoverFactor(a) + DeclaredFactors(a));
  }

  lemma WithDebts(a: Application, l: LedgerFacts, risk: Common.Option<Risk>) returns (points: real, weight: real)
    requires Declared(a) && Debts(a) != 0
    ensures points == Points(Unencumbered(a, l, risk)) && weight == Weight(Unencumbered(a, l, risk)) && weight >= 12.0
    ensures Strength(Factors(a, l, risk)) == Blend(points, weight, DebtFactor(Monthly(a), Debts(a)))
  {
    points, weight := UnencumberedShare(a, l, risk);
    UnencumberedIsSound(a, l, risk);
    DebtsComeLast(a, l, risk);
    ShareWith(Unencumbered(a, l, risk), DebtFactor(Monthly(a), Debts(a)), points, weight);
  }

  lemma DebtsComeLast(a: Application, l: LedgerFacts, risk: Common.Option<Risk>)
    requires Declared(a) && Debts(a) != 0
    ensures Factors(a, l, risk) == Unencumbered(a, l, risk) + [DebtFactor(Monthly(a), Debts(a))]
  {
  }

  lemma DebtsAreElsewhere(a: Application, exposure: int, elsewhere: int, l: LedgerFacts, risk: Common.Option<Risk>)
    ensures Unencumbered(Owing(a, exposure, elsewhere), l, risk) == Unencumbered(a, l, risk)
    ensures exposure + elsewhere == 0 ==> Factors(Owing(a, exposure, elsewhere), l, risk) == Unencumbered(a, l, risk)
  {
    var b := Owing(a, exposure, elsewhere);
    assert TurnoverFactor(b) == TurnoverFactor(a) && DeclaredFactors(b) == DeclaredFactors(a);
    if exposure + elsewhere == 0 {
      assert After(b) == DeclaredFactors(b);
    }
  }

  lemma BlendFollowsValue(points: real, weight: real, v: real, w: real)
    requires weight >= 12.0 && v <= w
    ensures Blend(points, weight, Factor(v, 10.0)) <= Blend(points, weight, Factor(w, 10.0))
  {
    var p, q := points + Times(v, 10.0), points + Times(w, 10.0);
    TimesMonotone(p, q, weight + 10.0);
    CompareShares(q, weight + 10.0, p, weight + 10.0);
  }

  lemma StrainGrows(monthly: real, debt: int, more: int)
    requires debt <= more
    ensures Strain(monthly, debt) <= Strain(monthly, more)
  {
    var m := if monthly > 1.0 then monthly else 1.0;
    CompareShares(more as real, m, debt as real, m);
    TimesMonotone(debt as real, more as real, m);
  }

  lemma LightnessFalls(monthly: real, debt: int, more: int)
    requires debt <= more
    ensures Lightness(monthly, more) <= Lightness(monthly, debt)
  {
    StrainGrows(monthly, debt, more);
    ClampMonotone(1.0 - Strain(monthly, more) / 3.0, 1.0 - Strain(monthly, debt) / 3.0);
  }

  lemma ClampMonotone(x: real, y: real)
    requires x <= y
    ensures Clamp(x) <= Clamp(y)
  {
  }

  lemma DebtWeakens(a: Application, exposure: int, elsewhere: int, l: LedgerFacts, risk: Common.Option<Risk>)
    requires Declared(a) && 0 < Debts(a) <= exposure + elsewhere
    ensures Strength(Factors(Owing(a, exposure, elsewhere), l, risk)) <= Strength(Factors(a, l, risk))
  {
    var b := Owing(a, exposure, elsewhere);
    DebtsAreElsewhere(a, exposure, elsewhere, l, risk);
    var points, weight := WithDebts(a, l, risk);
    var points', weight' := WithDebts(b, l, risk);
    LightnessFalls(Monthly(a), Debts(a), Debts(b));
    BlendFollowsValue(points, weight, Lightness(Monthly(a), Debts(b)), Lightness(Monthly(a), Debts(a)));
  }

  /** Owing more, here or elsewhere, never buys a larger limit, provided something was owed before. */
  lemma MoreDebtNeverBuysMore(a: Application, exposure: int, elsewhere: int, l: LedgerFacts, risk: Common.Option<Risk>)
    requires 0 <= a.exposure <= exposure && a.elsewhere <= elsewhere && 0 < Debts(a)
    ensures Limit(Owing(a, exposure, elsewhere), l, risk) <= Limit(a, l, risk)
  {
    var b := Owing(a, exposure, elsewhere);
    if Declared(a) && a.turnover.value < 0 {
      NegativeBuysNothing(a, l, risk);
      NegativeBuysNothing(b, l, risk);
    } else if Declared(a) {
      var s, t := Strength(Factors(b, l, risk)), Strength(Factors(a, l, risk));
      DebtWeakens(a, exposure, elsewhere, l, risk);
      TimesMonotone(s, t, Base(a));
      RawFollowsStrength(b, a, s, t, risk);
      LimitFollowsRaw(b, a, l, risk, s, t);
    }
  }

  /**
   * The first debt is different: it adds a factor where there was none, and raises the score exactly when the debt
   * is light compared with the score so far.
   */
  lemma FirstDebtRaisesScoreExactly(a: Application, exposure: int, elsewhere: int, l: LedgerFacts,
                                    risk: Common.Option<Risk>)
    requires Declared(a) && Debts(a) == 0 && exposure + elsewhere != 0
    ensures Score(Owing(a, exposure, elsewhere), l, risk) > Score(a, l, risk)
            <==> Lightness(Monthly(a), exposure + elsewhere) > Strength(Factors(a, l, risk))
  {
    var b := Owing(a, exposure, elsewhere);
    var points, weight := UnencumberedShare(a, l, risk);
    DebtsAreElsewhere(a, exposure, elsewhere, l, risk);
    DebtsAreElsewhere(a, a.exposure, a.elsewhere, l, risk);
    assert Owing(a, a.exposure, a.elsewhere) == a;
    var points', weight' := WithDebts(b, l, risk);
    AddedFactorExactly(points, weight, Lightness(Monthly(a), Debts(b)));
  }

  lemma AddedFactorExactly(points: real, weight: real, v: real)
    requires weight >= 12.0
    ensures points / weight < Blend(points, weight, Factor(v, 10.0)) <==> points / weight < v
  {
    CrossAdded(points, weight, v);
    CompareShares(points, weight, points + Times(v, 10.0), weight + 10.0);
    CompareShares(points, weight, v, 1.0);
  }

  lemma CrossAdded(points: real, weight: real, v: real)
    ensures Times(points, weight + 10.0) == Times(points, weight) + 10.0 * points
    ensures Times(points + Times(v, 10.0), weight) == Times(points, weight) + 10.0 * Times(v, weight)
  {
  }

  /** A new buyer with a verified turnover of 48 lakh a year who asks for one lakh, and may owe one paisa elsewhere. */
  function Newcomer(elsewhere: int): Application {
    Application(10_000_000, Common.Some(480_000_000), Common.None, 0, elsewhere, 0, Common.None, true)
  }

  const BLANK := LedgerFacts(0, Common.None, Common.None, 0, 0)

  lemma NewcomerShare() returns (points: real, weight: real)
    ensures points == Points(Unencumbered(Newcomer(0), BLANK, Common.None)) == 14.0
    ensures weight == Weight(Unencumbered(Newcomer(0), BLANK, Common.None)) == 26.0
    ensures Strength(Unencumbered(Newcomer(0), BLANK, Common.None)) == 14.0 / 26.0
  {
    var a := Newcomer(0);
    points, weight := UnencumberedShare(a, BLANK, Common.None);
    var record, turnover := Factor(0.0, 12.0), Factor(1.0, 14.0);
    assert Cover(a) == 1.0;
    assert Unencumbered(a, BLANK, Common.None) == [record] + [turnover];
    PointsAdd([record], [turnover]);
    PointsOfOne(record);
    PointsOfOne(turnover);
  }

  lemma NewcomerBase()
    ensures Declared(Newcomer(0)) && Declared(Newcomer(1))
    ensures Base(Newcomer(0)) == 10_000_000.0 == Base(Newcomer(1))
    ensures Lightness(Monthly(Newcomer(1)), 1) == 1.0 - 1.0 / 120_000_000.0
  {
  }

  /** So declaring a debt of one paisa raises what a newcomer is offered, from 37,000 rupees to 46,000. */
  lemma DeclaringADebtCanBuyMore()
    ensures Limit(Newcomer(0), BLANK, Common.None) == 3_700_000
    ensures Limit(Newcomer(1), BLANK, Common.None) == 4_600_000
  {
    var points, weight := NewcomerShare();
    NewcomerBase();
    DebtsAreElsewhere(Newcomer(0), 0, 0, BLANK, Common.None);
    DebtsAreElsewhere(Newcomer(0), 0, 1, BLANK, Common.None);
    assert Owing(Newcomer(0), 0, 0) == Newcomer(0) && Owing(Newcomer(0), 0, 1) == Newcomer(1);
    var points', weight' := WithDebts(Newcomer(1), BLANK, Common.None);
    var s, t := 14.0 / 26.0, (14.0 + Times(1.0 - 1.0 / 120_000_000.0, 10.0)) / 36.0;
    assert Strength(Factors(Newcomer(0), BLANK, Common.None)) == s;
    assert Strength(Factors(Newcomer(1), BLANK, Common.None)) == t;
    assert Raw(Newcomer(0), s, Common.None) == 10_000_000.0 * s * 0.7;
    assert Raw(Newcomer(1), t, Common.None) == 10_000_000.0 * t * 0.7;
  }
}
