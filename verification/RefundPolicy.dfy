/** The one place that decides how an escrowed amount is split when a postpone negotiation ends. */
module RefundPolicy {

  datatype Role = Student | Tutor

  datatype Outcome = Agreed | NoAgreement | Unresponsive | TutorInitiatedNoAgreement

  /** The two percentages read from the environment; the constructor refuses any others. */
  datatype Percentages = Percentages(tutor: real, platform: real)

  type Cuts = c: Percentages
    | 0.0 <= c.tutor <= 100.0 && 0.0 <= c.platform <= 100.0 && c.tutor + c.platform <= 100.0
    witness Percentages(50.0, 10.0)

  datatype Split = Split(tutor: int, platform: int, student: int)

  /** Rounding to the nearest integer, halves upwards. */
  function Round(x: real): int {
    (x + 0.5).Floor
  }

  /** The exact part of the amount. */
  function Share(amount: nat, percent: real): real {
    amount as real * percent / 100.0
  }

  function Portion(amount: nat, percent: real): int {
    Round(Share(amount, percent))
  }

  /** The only case that does not give one side everything. */
  predicate ShortNoticeCase(initiator: Role, shortNotice: bool, outcome: Outcome) {
    outcome == NoAgreement && initiator == Student && shortNotice
  }

  function ComputeSplit(cuts: Cuts, initiator: Role, shortNotice: bool, outcome: Outcome, amount: nat): Split {
    if outcome == Agreed then Split(amount, 0, 0)
    else if outcome == Unresponsive then Split(0, 0, amount)
    else if outcome == TutorInitiatedNoAgreement then Split(0, 0, amount)
    else if ShortNoticeCase(initiator, shortNotice, outcome) then
      var tutor, platform := Portion(amount, cuts.tutor), Portion(amount, cuts.platform);
      Split(tutor, platform, amount - tutor - platform)
    else Split(0, 0, amount)
  }

  // ---- rounding ------------------------------------------------------------------------------------

  /** The exact portion ends in one half. */
  predicate EndsInHalf(x: real) {
    x - x.Floor as real == 0.5
  }

  lemma RoundIs(x: real, n: int)
    ensures Round(x) == n <==> n as real <= x + 0.5 < (n + 1) as real
  {
  }

  lemma RoundedSumBound(x: real, y: real, bound: int)
    requires x + y <= bound as real
    ensures Round(x) + Round(y) <= bound + 1
    ensures Round(x) + Round(y) == bound + 1 ==> x + y == bound as real && EndsInHalf(x)
  {
    var p, q := Round(x), Round(y);
    RoundIs(x, p);
    RoundIs(y, q);
    assert (p + q) as real <= x + y + 1.0;
    if p + q == bound + 1 {
      assert p as real == x + 0.5;
      assert x.Floor == p - 1;
    }
  }

  lemma HalvesRoundUp(x: real, y: real, bound: int)
    requires x + y == bound as real && EndsInHalf(x)
    ensures Round(x) + Round(y) == bound + 1
  {
    var n := x.Floor;
    RoundIs(x, n + 1);
    RoundIs(y, bound - n);
  }

  /** Two reals with an integer bound on their sum: rounding both can exceed the bound by one,
      exactly when the sum reaches the bound and both end in one half. */
  lemma RoundingTwoParts(x: real, y: real, bound: int)
    requires x + y <= bound as real
    ensures Round(x) + Round(y) <= bound + 1
    ensures Round(x) + Round(y) == bound + 1 <==> x + y == bound as real && EndsInHalf(x)
  {
    RoundedSumBound(x, y, bound);
    if x + y == bound as real && EndsInHalf(x) {
      HalvesRoundUp(x, y, bound);
    }
  }

  // ---- shares of an amount ----------------------------------------------------------------------------

  lemma ShareRange(amount: nat, percent: real)
    requires 0.0 <= percent <= 100.0
    ensures 0.0 <= Share(amount, percent) <= amount as real
  {
    var a := amount as real;
    assert 0.0 <= a * percent <= a * 100.0;
  }

  lemma RoundInside(x: real, n: nat)
    requires 0.0 <= x <= n as real
    ensures 0 <= Round(x) <= n
  {
  }

  lemma PortionRange(amount: nat, percent: real)
    requires 0.0 <= percent <= 100.0
    ensures 0 <= Portion(amount, percent) <= amount
  {
    ShareRange(amount, percent);
    RoundInside(Share(amount, percent), amount);
  }

  lemma Distribute(a: real, t: real, p: real)
    ensures a * t / 100.0 + a * p / 100.0 == a * (t + p) / 100.0
  {
  }

  lemma PartOfWhole(a: real, percent: real)
    requires a >= 0.0 && 0.0 <= percent <= 100.0
    ensures a * percent / 100.0 <= a
    ensures a * percent / 100.0 == a <==> a == 0.0 || percent == 100.0
  {
    if a > 0.0 && percent < 100.0 {
      assert a * (100.0 - percent) > 0.0;
    }
  }

  lemma SharesOfWhole(amount: nat, t: real, p: real)
    requires 0.0 <= t && 0.0 <= p && t + p <= 100.0
    ensures Share(amount, t) + Share(amount, p) <= amount as real
    ensures Share(amount, t) + Share(amount, p) == amount as real <==> amount == 0 || t + p == 100.0
  {
    Distribute(amount as real, t, p);
    PartOfWhole(amount as real, t + p);
  }

  lemma NothingHasNoHalf(percent: real)
    ensures !EndsInHalf(Share(0, percent))
  {
    assert Share(0, percent) == 0.0;
  }

  lemma SharesLeaveAtMostOneOver(cuts: Cuts, amount: nat)
    ensures Portion(amount, cuts.tutor) + Portion(amount, cuts.platform) <= amount + 1
    ensures Portion(amount, cuts.tutor) + Portion(amount, cuts.platform) == amount + 1
            <==> amount > 0 && cuts.tutor + cuts.platform == 100.0 && EndsInHalf(Share(amount, cuts.tutor))
  {
    SharesOfWhole(amount, cuts.tutor, cuts.platform);
    RoundingTwoParts(Share(amount, cuts.tutor), Share(amount, cuts.platform), amount);
    NothingHasNoHalf(cuts.tutor);
  }

  // ---- the split -----------------------------------------------------------------------------------------

  /** The tutor has it all after an agreement. Otherwise the student has everything back, unless a student's late
      request found no agreement: then tutor and platform have their percentages, each to the nearest baht. */
  lemma WhoHasWhat(cuts: Cuts, initiator: Role, shortNotice: bool, outcome: Outcome, amount: nat)
    ensures var s := ComputeSplit(cuts, initiator, shortNotice, outcome, amount);
            && (outcome == Agreed ==> s == Split(amount, 0, 0))
            && (outcome != Agreed && !(outcome == NoAgreement && initiator == Student && shortNotice) ==>
                  s == Split(0, 0, amount))
            && (outcome == NoAgreement && initiator == Student && shortNotice ==>
                  && 100.0 * s.tutor as real - 50.0 <= amount as real * cuts.tutor < 100.0 * s.tutor as real + 50.0
                  && 100.0 * s.platform as real - 50.0 <= amount as real * cuts.platform
                     < 100.0 * s.platform as real + 50.0)
  {
    RoundIs(Share(amount, cuts.tutor), Portion(amount, cuts.tutor));
    RoundIs(Share(amount, cuts.platform), Portion(amount, cuts.platform));
  }

  /** Whatever the outcome, the three parts add up to the amount and only the student's can be
      negative, by one unit at most. */
  lemma SplitConserves(cuts: Cuts, initiator: Role, shortNotice: bool, outcome: Outcome, amount: nat)
    ensures var s := ComputeSplit(cuts, initiator, shortNotice, outcome, amount);
            && s.tutor + s.platform + s.student == amount
            && 0 <= s.tutor <= amount && 0 <= s.platform <= amount && -1 <= s.student <= amount
  {
    PortionRange(amount, cuts.tutor);
    PortionRange(amount, cuts.platform);
    SharesLeaveAtMostOneOver(cuts, amount);
  }

  /** The student's part is a real refund in every case but one, and that one is exact: a
      short-notice split that leaves the student nothing, on an amount whose portions both end
      in one half and are both rounded up. */
  lemma StudentPartNegativeIff(cuts: Cuts, initiator: Role, shortNotice: bool, outcome: Outcome, amount: nat)
    ensures ComputeSplit(cuts, initiator, shortNotice, outcome, amount).student < 0
            <==> ShortNoticeCase(initiator, shortNotice, outcome)
                 && amount > 0 && cuts.tutor + cuts.platform == 100.0
                 && EndsInHalf(Share(amount, cuts.tutor))
  {
    SharesLeaveAtMostOneOver(cuts, amount);
  }

  /** One baht under a 50/50 configuration: both sides are paid one baht. */
  lemma OneBahtSplitInHalves()
    ensures ComputeSplit(Percentages(50.0, 50.0), Student, true, NoAgreement, 1) == Split(1, 1, -1)
  {
    assert Portion(1, 50.0) == 1;
  }

  /** With the default 50/10 the student's part is never negative. */
  lemma DefaultCutsNeverNegative(initiator: Role, shortNotice: bool, outcome: Outcome, amount: nat)
    ensures ComputeSplit(Percentages(50.0, 10.0), initiator, shortNotice, outcome, amount).student >= 0
  {
    StudentPartNegativeIff(Percentages(50.0, 10.0), initiator, shortNotice, outcome, amount);
  }
}
