/** The canonical admission-score calculator, over exact numbers. An absent optional number stands for
    a value that is missing or not a number. */
module Score {
  import opened Basics

  datatype Weight = Weight(examCode: string, percent: Option<real>, minSubject: Option<real>, maxScore: Option<real>)

  datatype Program = Program(minGpax: Option<real>, minTotal: Option<real>, weights: seq<Weight>)

  datatype Input = Input(scores: map<string, real>, gpax: Option<real>)

  datatype Reason =
    | GpaxRequired | GpaxBelowThreshold | MissingSubject | SubjectBelowMinimum | TotalBelowMinimum

  datatype Warning = WeightSumOff(total: real) | GpaxMaxNotFour(examCode: string, maxScore: real) | InvalidPercent(examCode: string)

  datatype BreakdownEntry = BreakdownEntry(
    examCode: string, raw: real, maxScore: real, normalized: real, percent: real, contribution: real)

  /** An entered subject under its own minimum. */
  datatype FailedCheck = FailedCheck(examCode: string, required: real, actual: real)

  datatype ScoreResult = ScoreResult(
    eligible: bool, weighted: Option<real>, breakdown: seq<BreakdownEntry>, warnings: seq<Warning>,
    meetsGpax: bool, meetsTotal: bool, missing: seq<string>, failedMins: seq<FailedCheck>, reason: Option<Reason>)

  // ---- helpers ------------------------------------------------------------------------------------

  function Upper(c: char): char {
    if 'a' <= c <= 'z' then c - 'a' + 'A' else c
  }

  /** The code is GPAX in some mix of cases. */
  predicate IsGpax(code: string) {
    |code| == 4 && forall k :: 0 <= k < 4 ==> Upper(code[k]) == "GPAX"[k]
  }

  function MaxScoreFor(w: Weight): real {
    if w.maxScore.Some? then w.maxScore.value else if IsGpax(w.examCode) then 4.0 else 100.0
  }

  function Normalize(raw: real, max: real): real {
    if max <= 0.0 then 0.0 else raw / max * 100.0
  }

  function RawFor(w: Weight, input: Input): Option<real> {
    if IsGpax(w.examCode) then input.gpax
    else if w.examCode in input.scores then Some(input.scores[w.examCode])
    else None
  }

  function PercentOf(w: Weight): real {
    if w.percent.Some? then w.percent.value else 0.0
  }

  // ---- what the result should be ----------------------------------------------------------------------

  function Contribution(w: Weight, raw: real): real {
    Normalize(raw, MaxScoreFor(w)) * (PercentOf(w) / 100.0)
  }

  /** What a subject adds; a subject that was not entered adds nothing. */
  function Part(w: Weight, input: Input): real {
    Contribution(w, if RawFor(w, input).Some? then RawFor(w, input).value else 0.0)
  }

  function SumOf<T>(items: seq<T>, f: T -> real): real {
    if items == [] then 0.0 else SumOf(items[..|items| - 1], f) + f(items[|items| - 1])
  }

  function Total(ws: seq<Weight>, input: Input): real {
    SumOf(ws, w => Part(w, input))
  }

  predicate AllEntered(ws: seq<Weight>, input: Input) {
    forall k :: 0 <= k < |ws| ==> RawFor(ws[k], input).Some?
  }

  /** The canonical score: none while a subject is missing. */
  function Weighted(ws: seq<Weight>, input: Input): Option<real> {
    if AllEntered(ws, input) then Some(Total(ws, input)) else None
  }

  function Gate(p: Program, input: Input): Option<Reason> {
    if p.minGpax.None? then None
    else if input.gpax.None? then Some(GpaxRequired)
    else if input.gpax.value < p.minGpax.value then Some(GpaxBelowThreshold)
    else None
  }

  function Problem(w: Weight, input: Input): Option<Reason> {
    var raw := RawFor(w, input);
    if raw.None? then Some(MissingSubject)
    else if w.minSubject.Some? && raw.value < w.minSubject.value then Some(SubjectBelowMinimum)
    else None
  }

  predicate TotalShort(p: Program, input: Input) {
    AllEntered(p.weights, input) && p.minTotal.Some? && Total(p.weights, input) < p.minTotal.value
  }

  /** Every check passes, in no particular order. */
  predicate Eligible(p: Program, input: Input) {
    Gate(p, input).None? && (forall k :: 0 <= k < |p.weights| ==> Problem(p.weights[k], input).None?)
    && !TotalShort(p, input)
  }

  predicate FirstProblem(ws: seq<Weight>, input: Input, k: nat)
    requires k < |ws|
  {
    Problem(ws[k], input).Some? && forall j :: 0 <= j < k ==> Problem(ws[j], input).None?
  }

  /** The reason is that of the first failing check: the gate, then the subjects in list order, then
      the total. */
  predicate IsFirstReason(p: Program, input: Input, reason: Option<Reason>) {
    if Gate(p, input).Some? then reason == Gate(p, input)
    else if exists k :: 0 <= k < |p.weights| && Problem(p.weights[k], input).Some? then
      exists k :: 0 <= k < |p.weights| && FirstProblem(p.weights, input, k) && reason == Problem(p.weights[k], input)
    else reason == if TotalShort(p, input) then Some(TotalBelowMinimum) else None
  }

  /** Codes of subjects not entered; a missing GPAX that the gate has already reported is left out. */
  function MissingOf(ws: seq<Weight>, input: Input, gateAsked: bool): seq<string> {
    if ws == [] then []
    else
      var w := ws[|ws| - 1];
      MissingOf(ws[..|ws| - 1], input, gateAsked)
      + (if RawFor(w, input).None? && !(IsGpax(w.examCode) && gateAsked) then [w.examCode] else [])
  }

  function BelowMinOf(ws: seq<Weight>, input: Input): seq<FailedCheck> {
    if ws == [] then []
    else
      var w := ws[|ws| - 1];
      BelowMinOf(ws[..|ws| - 1], input)
      + (if Problem(w, input) == Some(SubjectBelowMinimum)
         then [FailedCheck(w.examCode, w.minSubject.value, RawFor(w, input).value)] else [])
  }

  /** What a GPAX entry that declares a scale other than 0 to 4 is reported with. */
  function WrongGpaxMax(w: Weight): seq<Warning> {
    if IsGpax(w.examCode) && w.maxScore.Some? && w.maxScore.value != 4.0
    then [GpaxMaxNotFour(w.examCode, w.maxScore.value)] else []
  }

  function GpaxWarnings(ws: seq<Weight>): seq<Warning> {
    if ws == [] then [] else GpaxWarnings(ws[..|ws| - 1]) + WrongGpaxMax(ws[|ws| - 1])
  }

  function PercentWarnings(ws: seq<Weight>): seq<Warning> {
    if ws == [] then []
    else PercentWarnings(ws[..|ws| - 1]) + if ws[|ws| - 1].percent.None? then [InvalidPercent(ws[|ws| - 1].examCode)] else []
  }

  function PercentSum(ws: seq<Weight>): real {
    if ws == [] then 0.0 else PercentSum(ws[..|ws| - 1]) + PercentOf(ws[|ws| - 1])
  }

  function SumWarnings(ws: seq<Weight>): seq<Warning> {
    if 99.5 <= PercentSum(ws) <= 100.5 then [] else [WeightSumOff(PercentSum(ws))]
  }

  /** The row shown for one entered subject. */
  function Row(w: Weight, raw: real): BreakdownEntry {
    BreakdownEntry(w.examCode, raw, MaxScoreFor(w), Normalize(raw, MaxScoreFor(w)), PercentOf(w), Contribution(w, raw))
  }

  // ---- the calculator -----------------------------------------------------------------------------------

  /** The reason kept after the first `n` subjects. */
  predicate ReasonAfter(p: Program, input: Input, n: nat, reason: Option<Reason>)
    requires n <= |p.weights|
  {
    if Gate(p, input).Some? then reason == Gate(p, input)
    else if reason.None? then forall k :: 0 <= k < n ==> Problem(p.weights[k], input).None?
    else exists k :: 0 <= k < n && FirstProblem(p.weights, input, k) && reason == Problem(p.weights[k], input)
  }

  /** A later problem does not replace a reason; the first one becomes it. */
  lemma ReasonNext(p: Program, input: Input, n: nat, reason: Option<Reason>)
    requires n < |p.weights| && ReasonAfter(p, input, n, reason)
    ensures ReasonAfter(p, input, n + 1, if reason.None? then Problem(p.weights[n], input) else reason)
  {
    var problem := Problem(p.weights[n], input);
    if Gate(p, input).None? {
      if reason.None? && problem.Some? {
        assert FirstProblem(p.weights, input, n);
      } else if reason.Some? {
        var k :| 0 <= k < n && FirstProblem(p.weights, input, k) && reason == Problem(p.weights[k], input);
      }
    }
  }

  /** Nothing missing and nothing below its minimum is no problem anywhere. */
  lemma {:induction false} NoListsNoProblems(ws: seq<Weight>, input: Input)
    ensures AllEntered(ws, input) && BelowMinOf(ws, input) == [] <==>
              forall k :: 0 <= k < |ws| ==> Problem(ws[k], input).None?
  {
    if ws != [] {
      var front, last := ws[..|ws| - 1], ws[|ws| - 1];
      NoListsNoProblems(front, input);
      assert forall k :: 0 <= k < |front| ==> ws[k] == front[k];
      if AllEntered(front, input) && RawFor(last, input).Some? {
        forall k | 0 <= k < |ws| ensures RawFor(ws[k], input).Some? {
          assert k < |front| ==> RawFor(front[k], input).Some?;
        }
      }
    }
  }

  /** One more subject, in each of the lists. */
  lemma ListsNext(ws: seq<Weight>, n: nat, input: Input, gateAsked: bool)
    requires n < |ws|
    ensures AllEntered(ws[..n + 1], input) <==> AllEntered(ws[..n], input) && RawFor(ws[n], input).Some?
    ensures MissingOf(ws[..n + 1], input, gateAsked) == MissingOf(ws[..n], input, gateAsked)
              + (if RawFor(ws[n], input).None? && !(IsGpax(ws[n].examCode) && gateAsked) then [ws[n].examCode] else [])
    ensures BelowMinOf(ws[..n + 1], input) == BelowMinOf(ws[..n], input)
              + (if Problem(ws[n], input) == Some(SubjectBelowMinimum)
                 then [FailedCheck(ws[n].examCode, ws[n].minSubject.value, RawFor(ws[n], input).value)] else [])
  {
    assert ws[..n + 1] == ws[..n] + [ws[n]];
  }

  /** Steps 1 and 2: the gate, then one pass over the subjects that keeps the first reason. */
  method CheckSubjects(p: Program, input: Input)
    returns (reason: Option<Reason>, anyMissing: bool, missing: seq<string>, failedMins: seq<FailedCheck>)
    ensures anyMissing == !AllEntered(p.weights, input)
    ensures missing == MissingOf(p.weights, input, Gate(p, input) == Some(GpaxRequired))
    ensures failedMins == BelowMinOf(p.weights, input)
    ensures ReasonAfter(p, input, |p.weights|, reason)
  {
    reason, anyMissing, missing, failedMins := Gate(p, input), false, [], [];
    var ws := p.weights;
    for n := 0 to |ws|
      invariant anyMissing == !AllEntered(ws[..n], input)
      invariant missing == MissingOf(ws[..n], input, Gate(p, input) == Some(GpaxRequired))
      invariant failedMins == BelowMinOf(ws[..n], input)
      invariant ReasonAfter(p, input, n, reason)
    {
      var w := ws[n];
      ReasonNext(p, input, n, reason);
      ListsNext(ws, n, input, Gate(p, input) == Some(GpaxRequired));
      var raw := RawFor(w, input);
      if raw.None? {
        anyMissing := true;
        if !(IsGpax(w.examCode) && reason == Some(GpaxRequired)) {
          missing := missing + [w.examCode];
        }
        if reason.None? { reason := Some(MissingSubject); }
      } else if w.minSubject.Some? && raw.value < w.minSubject.value {
        failedMins := failedMins + [FailedCheck(w.examCode, w.minSubject.value, raw.value)];
        if reason.None? { reason := Some(SubjectBelowMinimum); }
      }
    }
    assert ws[..|ws|] == ws;
  }

  method WeighSubject(w: Weight, raw: real) returns (row: BreakdownEntry)
    ensures row == Row(w, raw)
  {
    var max := MaxScoreFor(w);
    var normalized := Normalize(raw, max);
    row := BreakdownEntry(w.examCode, raw, max, normalized, PercentOf(w), normalized * (PercentOf(w) / 100.0));
  }

  /** Step 3: normalize, weight, add up. */
  method SumUp(ws: seq<Weight>, input: Input) returns (sum: real, breakdown: seq<BreakdownEntry>)
    requires AllEntered(ws, input)
    ensures sum == Total(ws, input)
    ensures |breakdown| == |ws|
    ensures forall k :: 0 <= k < |ws| ==>
              breakdown[k] == Row(ws[k], RawFor(ws[k], input).value)
  {
    sum, breakdown := 0.0, [];
    for n := 0 to |ws|
      invariant sum == Total(ws[..n], input)
      invariant |breakdown| == n
      invariant forall k :: 0 <= k < n ==> breakdown[k] == Row(ws[k], RawFor(ws[k], input).value)
    {
      var row := WeighSubject(ws[n], RawFor(ws[n], input).value);
      breakdown := breakdown + [row];
      sum := sum + row.contribution;
      assert ws[..n + 1][..n] == ws[..n];
    }
    assert ws[..|ws|] == ws;
  }

  /** Step 0: data warnings; a percentage that is not finite counts as zero. */
  method DataWarnings(ws: seq<Weight>) returns (warnings: seq<Warning>)
    ensures warnings == SumWarnings(ws) + GpaxWarnings(ws) + PercentWarnings(ws)
  {
    var total := 0.0;
    var gpaxMax, invalid: seq<Warning> := [], [];
    for n := 0 to |ws|
      invariant total == PercentSum(ws[..n])
      invariant gpaxMax == GpaxWarnings(ws[..n])
      invariant invalid == PercentWarnings(ws[..n])
    {
      assert ws[..n + 1][..n] == ws[..n];
      total := total + PercentOf(ws[n]);
      if ws[n].percent.None? { invalid := invalid + [InvalidPercent(ws[n].examCode)]; }
      if IsGpax(ws[n].examCode) && ws[n].maxScore.Some? && ws[n].maxScore.value != 4.0 {
        gpaxMax := gpaxMax + [GpaxMaxNotFour(ws[n].examCode, ws[n].maxScore.value)];
      }
    }
    assert ws[..|ws|] == ws;
    var off := if 99.5 <= total <= 100.5 then [] else [WeightSumOff(total)];
    warnings := off + gpaxMax + invalid;
  }

  method CalculateScore(p: Program, input: Input) returns (r: ScoreResult)
    ensures r.eligible == Eligible(p, input)
    ensures r.reason.None? <==> r.eligible
    ensures IsFirstReason(p, input, r.reason)
    ensures r.weighted == Weighted(p.weights, input)
    ensures |r.breakdown| == if AllEntered(p.weights, input) then |p.weights| else 0
    ensures forall k :: 0 <= k < |r.breakdown| ==> r.breakdown[k] == Row(p.weights[k], RawFor(p.weights[k], input).value)
    ensures r.warnings == SumWarnings(p.weights) + GpaxWarnings(p.weights) + PercentWarnings(p.weights)
    ensures r.meetsGpax == Gate(p, input).None? && r.meetsTotal == !TotalShort(p, input)
    ensures r.missing == MissingOf(p.weights, input, Gate(p, input) == Some(GpaxRequired))
    ensures r.failedMins == BelowMinOf(p.weights, input)
  {
    var warnings := DataWarnings(p.weights);
    var meetsGpax := Gate(p, input).None?;
    var firstReason, anyMissing, missing, failedMins := CheckSubjects(p, input);
    NoListsNoProblems(p.weights, input);
    var breakdown: seq<BreakdownEntry> := [];
    var weighted: Option<real> := None;
    if !anyMissing {
      var sum;
      sum, breakdown := SumUp(p.weights, input);
      weighted := Some(sum);
    }
    var meetsTotal := true;
    if p.minTotal.Some? && weighted.Some? && weighted.value < p.minTotal.value {
      meetsTotal := false;
      if firstReason.None? { firstReason := Some(TotalBelowMinimum); }
    }
    var eligible := meetsGpax && meetsTotal && !anyMissing && |failedMins| == 0;
    r := ScoreResult(eligible, weighted, breakdown, warnings, meetsGpax, meetsTotal, missing, failedMins,
                     if eligible then None else firstReason);
  }

  // ---- the order of the weights does not matter -----------------------------------------------------------

  lemma {:induction false} SumOfTwo<T>(a: seq<T>, b: seq<T>, f: T -> real)
    ensures SumOf(a + b, f) == SumOf(a, f) + SumOf(b, f)
  {
    if b == [] {
      assert a + b == a;
    } else {
      SumOfTwo(a, b[..|b| - 1], f);
      assert (a + b)[..|a + b| - 1] == a + b[..|b| - 1];
    }
  }

  /** The list without its item number `j`. */
  function Without<T>(items: seq<T>, j: nat): seq<T>
    requires j < |items|
  {
    items[..j] + items[j + 1..]
  }

  lemma SumOfOneMore<T>(items: seq<T>, last: T, f: T -> real)
    ensures SumOf(items + [last], f) == SumOf(items, f) + f(last)
  {
    assert (items + [last])[..|items|] == items;
  }

  lemma SumAround<T>(before: seq<T>, item: T, after: seq<T>, f: T -> real)
    ensures SumOf((before + [item]) + after, f) == SumOf(before + after, f) + f(item)
  {
    SumOfTwo(before + [item], after, f);
    SumOfOneMore(before, item, f);
    SumOfTwo(before, after, f);
  }

  lemma Around<T>(items: seq<T>, j: nat)
    requires j < |items|
    ensures items == (items[..j] + [items[j]]) + items[j + 1..]
  {
  }

  /** Taking one item out takes its own value out of the sum ... */
  lemma SumWithout<T>(items: seq<T>, j: nat, f: T -> real)
    requires j < |items|
    ensures SumOf(items, f) == SumOf(Without(items, j), f) + f(items[j])
  {
    Around(items, j);
    SumAround(items[..j], items[j], items[j + 1..], f);
  }

  /** ... and itself out of the bag. */
  lemma BagWithout<T>(items: seq<T>, j: nat)
    requires j < |items|
    ensures |Without(items, j)| == |items| - 1
    ensures multiset(Without(items, j)) == multiset(items) - multiset{items[j]}
  {
    Around(items, j);
  }

  lemma FindInBag<T>(items: seq<T>, item: T) returns (j: nat)
    requires item in multiset(items)
    ensures j < |items| && items[j] == item
  {
    j :| j < |items| && items[j] == item;
  }

  lemma {:induction false} SumIgnoresOrder<T>(items: seq<T>, items': seq<T>, f: T -> real)
    requires multiset(items) == multiset(items')
    ensures SumOf(items, f) == SumOf(items', f)
    decreases |items|
  {
    if items == [] {
      assert |multiset(items')| == 0;
    } else {
      var j := FindInBag(items', items[0]);
      SumWithout(items, 0, f);
      SumWithout(items', j, f);
      BagWithout(items, 0);
      BagWithout(items', j);
      SumIgnoresOrder(Without(items, 0), Without(items', j), f);
    }
  }

  /** The two checks that run over the list depend only on which weights are in it. */
  lemma EveryWeight(ws: seq<Weight>, input: Input)
    ensures AllEntered(ws, input) <==> forall w :: w in ws ==> RawFor(w, input).Some?
    ensures (forall k :: 0 <= k < |ws| ==> Problem(ws[k], input).None?) <==> forall w :: w in ws ==> Problem(w, input).None?
  {
    assert forall k :: 0 <= k < |ws| ==> ws[k] in ws;
  }

  /** Reordering the weight list changes neither the score nor eligibility (it may change which
      failure is named). */
  lemma OrderDoesNotMatter(p: Program, ws': seq<Weight>, input: Input)
    requires multiset(p.weights) == multiset(ws')
    ensures AllEntered(ws', input) <==> AllEntered(p.weights, input)
    ensures Total(ws', input) == Total(p.weights, input)
    ensures Eligible(p.(weights := ws'), input) <==> Eligible(p, input)
  {
    var ws := p.weights;
    SumIgnoresOrder(ws, ws', w => Part(w, input));
    forall w ensures w in ws <==> w in ws' { assert w in multiset(ws) <==> w in multiset(ws'); }
    EveryWeight(ws, input);
    EveryWeight(ws', input);
  }

  // ---- better scores never hurt -----------------------------------------------------------------------------

  /** Everything entered before is still entered and not lower. */
  predicate AtLeast(input': Input, input: Input) {
    && (forall code :: code in input.scores ==> code in input'.scores && input.scores[code] <= input'.scores[code])
    && (input.gpax.Some? ==> input'.gpax.Some? && input.gpax.value <= input'.gpax.value)
  }

  predicate NonNegativeWeights(ws: seq<Weight>) {
    forall k :: 0 <= k < |ws| ==> PercentOf(ws[k]) >= 0.0
  }

  lemma DivGrows(a: real, b: real, d: real)
    requires a <= b && d > 0.0
    ensures a / d <= b / d
  {
  }

  lemma MulGrows(a: real, b: real, c: real)
    requires a <= b && c >= 0.0
    ensures a * c <= b * c
  {
  }

  lemma ContributionGrows(w: Weight, raw: real, raw': real)
    requires raw <= raw' && PercentOf(w) >= 0.0
    ensures Contribution(w, raw) <= Contribution(w, raw')
  {
    var max, share := MaxScoreFor(w), PercentOf(w) / 100.0;
    if max > 0.0 {
      DivGrows(raw, raw', max);
    }
    MulGrows(Normalize(raw, max), Normalize(raw', max), share);
  }

  lemma {:induction false} SumGrows<T>(items: seq<T>, f: T -> real, g: T -> real)
    requires forall k :: 0 <= k < |items| ==> f(items[k]) <= g(items[k])
    ensures SumOf(items, f) <= SumOf(items, g)
  {
    if items != [] {
      SumGrows(items[..|items| - 1], f, g);
    }
  }

  lemma TotalGrows(ws: seq<Weight>, input: Input, input': Input)
    requires AllEntered(ws, input) && AtLeast(input', input) && NonNegativeWeights(ws)
    ensures AllEntered(ws, input') && Total(ws, input) <= Total(ws, input')
  {
    forall k | 0 <= k < |ws| ensures RawFor(ws[k], input').Some? && Part(ws[k], input) <= Part(ws[k], input') {
      assert RawFor(ws[k], input).Some?;
      ContributionGrows(ws[k], RawFor(ws[k], input).value, RawFor(ws[k], input').value);
    }
    SumGrows(ws, w => Part(w, input), w => Part(w, input'));
  }

  /** Raising entered scores, or entering more, never lowers the score and never loses eligibility. */
  lemma BetterScoresNeverHurt(p: Program, input: Input, input': Input)
    requires AtLeast(input', input) && NonNegativeWeights(p.weights)
    ensures AllEntered(p.weights, input) ==>
              AllEntered(p.weights, input') && Total(p.weights, input) <= Total(p.weights, input')
    ensures Eligible(p, input) ==> Eligible(p, input')
  {
    if AllEntered(p.weights, input) {
      TotalGrows(p.weights, input, input');
    }
    if Eligible(p, input) {
      forall k | 0 <= k < |p.weights| ensures Problem(p.weights[k], input').None? && RawFor(p.weights[k], input).Some? {
        assert Problem(p.weights[k], input).None?;
      }
      assert AllEntered(p.weights, input);
    }
  }

  // ---- the scale ----------------------------------------------------------------------------------------------

  /** The four letters, each in either case. */
  lemma GpaxSpelled(code: string)
    ensures IsGpax(code) <==>
              |code| == 4 && code[0] in "gG" && code[1] in "pP" && code[2] in "aA" && code[3] in "xX"
  {
  }

  /** A maximum left out means 4 for a grade average and 100 for everything else. */
  lemma DefaultScales(w: Weight)
    requires w.maxScore.None?
    ensures w.examCode in ["GPAX", "gpax", "Gpax"] ==> MaxScoreFor(w) == 4.0
    ensures |w.examCode| != 4 || w.examCode[0] !in "gG" ==> MaxScoreFor(w) == 100.0
  {
    GpaxSpelled(w.examCode);
  }

  lemma QuotientTimes(raw: real, max: real, percent: real)
    requires max > 0.0
    ensures raw / max * 100.0 * (percent / 100.0) * max == raw * percent
  {
    var n := raw / max;
    assert n * max == raw;
    assert n * 100.0 * (percent / 100.0) == n * percent;
    assert n * percent * max == n * max * percent;
  }

  /** Rule of three: the contribution is to the percentage as the raw score is to its maximum. */
  lemma ContributionIsProportional(w: Weight, raw: real)
    ensures MaxScoreFor(w) > 0.0 ==> Contribution(w, raw) * MaxScoreFor(w) == raw * PercentOf(w)
    ensures MaxScoreFor(w) <= 0.0 || w.percent.None? ==> Contribution(w, raw) == 0.0
    ensures w.percent.Some? ==> PercentOf(w) == w.percent.value
  {
    if MaxScoreFor(w) > 0.0 {
      QuotientTimes(raw, MaxScoreFor(w), PercentOf(w));
    }
  }

  /** The row shown for a subject: on a scale of 100, the percentage, and what it contributes. */
  lemma RowMeans(w: Weight, raw: real)
    requires MaxScoreFor(w) > 0.0
    ensures var row := Row(w, raw);
            && row.examCode == w.examCode && row.raw == raw && row.maxScore == MaxScoreFor(w)
            && row.normalized * row.maxScore == raw * 100.0
            && (w.percent.Some? ==> row.percent == w.percent.value)
            && row.contribution * 100.0 == row.normalized * row.percent
  {
    assert raw / MaxScoreFor(w) * MaxScoreFor(w) == raw;
  }

  /** The contributions of the rows add up to the score. */
  lemma {:induction false} RowsAddUp(ws: seq<Weight>, input: Input, rows: seq<BreakdownEntry>)
    requires AllEntered(ws, input) && |rows| == |ws|
    requires forall k :: 0 <= k < |ws| ==> rows[k] == Row(ws[k], RawFor(ws[k], input).value)
    ensures SumOf(rows, (row: BreakdownEntry) => row.contribution) == Total(ws, input)
  {
    if ws != [] {
      assert RawFor(ws[|ws| - 1], input).Some?;
      RowsAddUp(ws[..|ws| - 1], input, rows[..|rows| - 1]);
    }
  }

  lemma SameProduct(a: real, b: real, max: real)
    requires max > 0.0 && a * max == b * max
    ensures a == b
  {
    assert (a - b) * max == 0.0;
  }

  lemma Ends(w: Weight)
    requires MaxScoreFor(w) > 0.0
    ensures Contribution(w, MaxScoreFor(w)) == PercentOf(w) && Contribution(w, 0.0) == 0.0
  {
    var max, full := MaxScoreFor(w), Contribution(w, MaxScoreFor(w));
    ContributionIsProportional(w, max);
    assert full * max == PercentOf(w) * max;
    SameProduct(full, PercentOf(w), max);
    ContributionIsProportional(w, 0.0);
    SameProduct(Contribution(w, 0.0), 0.0, max);
  }

  predicate Scaled(ws: seq<Weight>) {
    forall k :: 0 <= k < |ws| ==> MaxScoreFor(ws[k]) > 0.0
  }

  predicate FullMarks(ws: seq<Weight>, input: Input) {
    forall k :: 0 <= k < |ws| ==> RawFor(ws[k], input) == Some(MaxScoreFor(ws[k]))
  }

  /** Full marks everywhere make the sum of the percentages. */
  lemma {:induction false} FullMarksMakeTheSum(ws: seq<Weight>, input: Input)
    requires Scaled(ws) && FullMarks(ws, input)
    ensures Total(ws, input) == PercentSum(ws)
  {
    if ws != [] {
      var front, last := ws[..|ws| - 1], ws[|ws| - 1];
      FullMarksMakeTheSum(front, input);
      Ends(last);
    }
  }

  /** Scores between nothing and the maximum. */
  predicate InRange(ws: seq<Weight>, input: Input) {
    forall k :: 0 <= k < |ws| && RawFor(ws[k], input).Some? ==> 0.0 <= RawFor(ws[k], input).value <= MaxScoreFor(ws[k])
  }

  /** With non-negative weights such scores keep the total between nothing and the sum of the percentages. */
  lemma {:induction false} TotalInRange(ws: seq<Weight>, input: Input)
    requires Scaled(ws) && InRange(ws, input) && NonNegativeWeights(ws)
    ensures 0.0 <= Total(ws, input) <= PercentSum(ws)
  {
    if ws != [] {
      var front, last := ws[..|ws| - 1], ws[|ws| - 1];
      TotalInRange(front, input);
      var raw := if RawFor(last, input).Some? then RawFor(last, input).value else 0.0;
      assert 0.0 <= raw <= MaxScoreFor(last);
      ContributionGrows(last, 0.0, raw);
      ContributionGrows(last, raw, MaxScoreFor(last));
      Ends(last);
    }
  }

  // ---- the thresholds ---------------------------------------------------------------------------------------

  predicate Entered(w: Weight, input: Input) {
    if IsGpax(w.examCode) then input.gpax.Some? else w.examCode in input.scores
  }

  /** The subject is entered, and below its own minimum. */
  predicate TooLow(w: Weight, input: Input) {
    && Entered(w, input) && w.minSubject.Some?
    && (if IsGpax(w.examCode) then input.gpax.value else input.scores[w.examCode]) < w.minSubject.value
  }

  predicate GateOpen(p: Program, input: Input) {
    p.minGpax.Some? ==> input.gpax.Some? && input.gpax.value >= p.minGpax.value
  }

  /** What a student needs: the grade average the program asks for, every subject entered and none under its
      own minimum, and the total; reaching a threshold exactly is enough. */
  lemma EligibleMeans(p: Program, input: Input)
    ensures Eligible(p, input) <==>
              && GateOpen(p, input) && (forall w :: w in p.weights ==> Entered(w, input) && !TooLow(w, input))
              && (p.minTotal.Some? ==> Total(p.weights, input) >= p.minTotal.value)
  {
    EveryWeight(p.weights, input);
    if forall w :: w in p.weights ==> Problem(w, input).None? {
      assert forall w :: w in p.weights ==> RawFor(w, input).Some?;
    }
  }

  /** Subject `k` is the first on the list that is missing or too low. */
  predicate FirstInList(ws: seq<Weight>, input: Input, k: nat)
    requires k < |ws|
  {
    && (!Entered(ws[k], input) || TooLow(ws[k], input))
    && forall j :: 0 <= j < k ==> Entered(ws[j], input) && !TooLow(ws[j], input)
  }

  /** The reason that is given, case by case. */
  lemma ReasonMeans(p: Program, input: Input, reason: Option<Reason>)
    requires IsFirstReason(p, input, reason)
    ensures reason == Some(GpaxRequired) <==> p.minGpax.Some? && input.gpax.None?
    ensures reason == Some(GpaxBelowThreshold)
            <==> p.minGpax.Some? && input.gpax.Some? && input.gpax.value < p.minGpax.value
    ensures reason == Some(MissingSubject)
            <==> GateOpen(p, input) && exists k :: 0 <= k < |p.weights| && FirstInList(p.weights, input, k)
                                                   && !Entered(p.weights[k], input)
    ensures reason == Some(SubjectBelowMinimum)
            <==> GateOpen(p, input) && exists k :: 0 <= k < |p.weights| && FirstInList(p.weights, input, k)
                                                   && TooLow(p.weights[k], input)
  {
    var ws := p.weights;
    forall k | 0 <= k < |ws|
      ensures Problem(ws[k], input) == if !Entered(ws[k], input) then Some(MissingSubject)
                                       else if TooLow(ws[k], input) then Some(SubjectBelowMinimum) else None
    {}
    forall k | 0 <= k < |ws| ensures FirstProblem(ws, input, k) <==> FirstInList(ws, input, k) {}
  }

  // ---- the lists ----------------------------------------------------------------------------------------------

  lemma InFrontOrLast<T>(items: seq<T>, x: T)
    requires items != []
    ensures x in items <==> x in items[..|items| - 1] || x == items[|items| - 1]
  {
  }

  /** Reported as missing are the codes of the subjects not entered, without a GPAX that the gate has asked for. */
  lemma {:induction false} MissingExact(ws: seq<Weight>, input: Input, gateAsked: bool, code: string)
    ensures code in MissingOf(ws, input, gateAsked)
            <==> exists w :: w in ws && w.examCode == code && !Entered(w, input) && !(IsGpax(code) && gateAsked)
  {
    if ws != [] {
      MissingExact(ws[..|ws| - 1], input, gateAsked, code);
      forall w ensures w in ws <==> w in ws[..|ws| - 1] || w == ws[|ws| - 1] { InFrontOrLast(ws, w); }
    }
  }

  /** Reported as failed are the subjects entered but too low, with what was required and what was scored. */
  lemma {:induction false} FailedExact(ws: seq<Weight>, input: Input, check: FailedCheck)
    ensures check in BelowMinOf(ws, input)
            <==> exists w :: w in ws && TooLow(w, input) && w.examCode == check.examCode
                             && w.minSubject == Some(check.required) && RawFor(w, input) == Some(check.actual)
  {
    if ws != [] {
      FailedExact(ws[..|ws| - 1], input, check);
      forall w ensures w in ws <==> w in ws[..|ws| - 1] || w == ws[|ws| - 1] { InFrontOrLast(ws, w); }
    }
  }

  /** A grade average declared on another scale than 0 to 4 is reported with its scale, and nothing else is. */
  lemma {:induction false} ScaleReportedIff(ws: seq<Weight>, warning: Warning)
    ensures warning in GpaxWarnings(ws)
            <==> exists w :: w in ws && IsGpax(w.examCode) && w.maxScore.Some? && w.maxScore.value != 4.0
                             && warning == GpaxMaxNotFour(w.examCode, w.maxScore.value)
  {
    if ws != [] {
      ScaleReportedIff(ws[..|ws| - 1], warning);
      forall w ensures w in ws <==> w in ws[..|ws| - 1] || w == ws[|ws| - 1] { InFrontOrLast(ws, w); }
    }
  }

  /** So is a percentage that is not a number. */
  lemma {:induction false} PercentReportedIff(ws: seq<Weight>, warning: Warning)
    ensures warning in PercentWarnings(ws)
            <==> exists w :: w in ws && w.percent.None? && warning == InvalidPercent(w.examCode)
  {
    if ws != [] {
      PercentReportedIff(ws[..|ws| - 1], warning);
      forall w ensures w in ws <==> w in ws[..|ws| - 1] || w == ws[|ws| - 1] { InFrontOrLast(ws, w); }
    }
  }

  /** The sum of the percentages is reported exactly if it is more than half a point away from 100. */
  lemma SumIsReportedIff(ws: seq<Weight>)
    ensures SumWarnings(ws) in [[], [WeightSumOff(PercentSum(ws))]]
    ensures SumWarnings(ws) == []
            <==> PercentSum(ws) - 100.0 <= 0.5 && 100.0 - PercentSum(ws) <= 0.5
  {
  }
}
