/** The score shown live while the student is still typing: the canonical calculator run on scores
    whose gaps are filled with zeros. */
module Projection {
  import opened Basics
  import opened Score

  /** One typed field; the list is in the order the fields were first typed, one entry per code. */
  datatype Typed = Typed(code: string, value: real)

  datatype Line = Line(examCode: string, percent: real, raw: real, contribution: real)

  predicate OnePerCode(typed: seq<Typed>) {
    forall i, j :: 0 <= i < j < |typed| ==> typed[i].code != typed[j].code
  }

  /** The value of the first typed code that spells GPAX in some mix of cases. */
  function GpaxOf(typed: seq<Typed>): Option<real> {
    if typed == [] then None else if IsGpax(typed[0].code) then Some(typed[0].value) else GpaxOf(typed[1..])
  }

  function ScoresOf(typed: seq<Typed>): map<string, real>
    requires OnePerCode(typed)
  {
    map k | 0 <= k < |typed| :: typed[k].code := typed[k].value
  }

  /** What the canonical calculator is given when the same fields are submitted. */
  function InputOf(typed: seq<Typed>): Input
    requires OnePerCode(typed)
  {
    Input(ScoresOf(typed), GpaxOf(typed))
  }

  /** The first field whose code spells GPAX is the grade average; without one there is none. */
  lemma {:induction false} GpaxIsRead(typed: seq<Typed>, n: nat)
    requires n <= |typed| && (forall k :: 0 <= k < n ==> !IsGpax(typed[k].code))
    ensures n == |typed| ==> GpaxOf(typed).None?
    ensures n < |typed| && IsGpax(typed[n].code) ==> GpaxOf(typed) == Some(typed[n].value)
  {
    if n > 0 {
      GpaxIsRead(typed[1..], n - 1);
    }
  }

  /** Every field is read under its own code, and nothing else is. */
  lemma FieldsAreRead(typed: seq<Typed>, code: string)
    requires OnePerCode(typed)
    ensures code in ScoresOf(typed) <==> exists k :: 0 <= k < |typed| && typed[k].code == code
    ensures forall k :: 0 <= k < |typed| && typed[k].code == code ==> ScoresOf(typed)[code] == typed[k].value
  {
    if k :| 0 <= k < |typed| && typed[k].code == code {
      assert ScoresOf(typed)[typed[k].code] == typed[k].value;
    }
  }

  function LineOf(w: Weight, input: Input): Line {
    Line(w.examCode, PercentOf(w), if RawFor(w, input).Some? then RawFor(w, input).value else 0.0, Part(w, input))
  }

  // ---- filling the gaps -----------------------------------------------------------------------------

  /** The inputs agree on what was entered; every other subject of the list counts as zero. */
  predicate Filled(filled: Input, ws: seq<Weight>, input: Input) {
    forall k :: 0 <= k < |ws| ==>
      RawFor(ws[k], filled) == Some(if RawFor(ws[k], input).Some? then RawFor(ws[k], input).value else 0.0)
  }

  lemma FillingKeepsTotal(filled: Input, ws: seq<Weight>, input: Input)
    requires Filled(filled, ws, input)
    ensures AllEntered(ws, filled) && Total(ws, filled) == Total(ws, input)
  {
    forall k | 0 <= k < |ws| ensures Part(ws[k], filled) == Part(ws[k], input) {
      assert RawFor(ws[k], filled).Some?;
    }
    SumGrows(ws, w => Part(w, filled), w => Part(w, input));
    SumGrows(ws, w => Part(w, input), w => Part(w, filled));
  }

  /** The loop over the weights: a zero for every subject other than GPAX that was not typed. */
  method FillZeros(ws: seq<Weight>, scores: map<string, real>) returns (filled: map<string, real>)
    ensures forall code :: code in scores ==> code in filled && filled[code] == scores[code]
    ensures forall code :: code in filled && code !in scores ==> filled[code] == 0.0
    ensures forall k :: 0 <= k < |ws| && !IsGpax(ws[k].examCode) ==> ws[k].examCode in filled
  {
    filled := scores;
    for n := 0 to |ws|
      invariant forall code :: code in scores ==> code in filled && filled[code] == scores[code]
      invariant forall code :: code in filled && code !in scores ==> filled[code] == 0.0
      invariant forall k :: 0 <= k < n && !IsGpax(ws[k].examCode) ==> ws[k].examCode in filled
    {
      if !IsGpax(ws[n].examCode) && ws[n].examCode !in filled {
        filled := filled[ws[n].examCode := 0.0];
      }
    }
  }

  method FindGpax(typed: seq<Typed>) returns (gpax: Option<real>)
    ensures gpax == GpaxOf(typed)
  {
    gpax := None;
    for n := 0 to |typed|
      invariant gpax.None?
      invariant GpaxOf(typed) == GpaxOf(typed[n..])
    {
      if IsGpax(typed[n].code) {
        gpax := Some(typed[n].value);
        return;
      }
    }
  }

  function ToLine(row: BreakdownEntry): Line {
    Line(row.examCode, row.percent, row.raw, row.contribution)
  }

  function LinesOf(rows: seq<BreakdownEntry>): seq<Line> {
    seq(|rows|, k requires 0 <= k < |rows| => ToLine(rows[k]))
  }

  predicate SameButMinimum(v: Weight, w: Weight) {
    v.examCode == w.examCode && v.percent == w.percent && v.maxScore == w.maxScore
  }

  lemma LineFromRow(w: Weight, v: Weight, full: Input, input: Input)
    requires SameButMinimum(v, w)
    requires RawFor(w, full) == Some(if RawFor(w, input).Some? then RawFor(w, input).value else 0.0)
    ensures ToLine(Row(v, RawFor(v, full).value)) == LineOf(w, input)
  {
  }

  /** The projection drops the subject minimums; the total never looks at them. */
  lemma {:induction false} MinimumsDoNotMatter(vs: seq<Weight>, ws: seq<Weight>, input: Input)
    requires |vs| == |ws| && forall k :: 0 <= k < |ws| ==> SameButMinimum(vs[k], ws[k])
    ensures Total(vs, input) == Total(ws, input)
    ensures AllEntered(ws, input) ==> AllEntered(vs, input)
  {
    if ws != [] {
      var v, w := vs[|vs| - 1], ws[|ws| - 1];
      MinimumsDoNotMatter(vs[..|vs| - 1], ws[..|ws| - 1], input);
      assert Part(v, input) == Part(w, input);
    }
    forall k | 0 <= k < |ws| ensures RawFor(vs[k], input) == RawFor(ws[k], input) {
      assert SameButMinimum(vs[k], ws[k]);
    }
  }

  /** The projection: always a number, and always the canonical total with gaps counted as nothing. */
  method CalculateWeightedScore(ws: seq<Weight>, typed: seq<Typed>) returns (total: real, breakdown: seq<Line>)
    requires OnePerCode(typed)
    ensures total == Total(ws, InputOf(typed))
    ensures |breakdown| == |ws| && forall k :: 0 <= k < |ws| ==> breakdown[k] == LineOf(ws[k], InputOf(typed))
  {
    var gpax := FindGpax(typed);
    var scores := FillZeros(ws, ScoresOf(typed));
    var full := Input(scores, Some(if gpax.Some? then gpax.value else 0.0));
    FillingKeepsTotal(full, ws, InputOf(typed));
    var bare := seq(|ws|, k requires 0 <= k < |ws| => ws[k].(minSubject := None));
    MinimumsDoNotMatter(bare, ws, full);
    var r := CalculateScore(Program(None, None, bare), full);
    total := if r.weighted.Some? then r.weighted.value else 0.0;
    breakdown := LinesOf(r.breakdown);
    forall k | 0 <= k < |ws| ensures breakdown[k] == LineOf(ws[k], InputOf(typed)) {
      LineFromRow(ws[k], bare[k], full, InputOf(typed));
    }
  }

  // ---- what the shown number means ------------------------------------------------------------------------

  /** What was entered stays, everything on the list gets entered, and nothing new is negative. */
  predicate Completes(done: Input, ws: seq<Weight>, input: Input) {
    forall k :: 0 <= k < |ws| ==>
      var before, after := RawFor(ws[k], input), RawFor(ws[k], done);
      after.Some? && (if before.Some? then after == before else after.value >= 0.0)
  }

  /** The same fields shown live and submitted: the shown number is the canonical score if and only if every
      subject is entered; otherwise there is no canonical score. */
  method ShowAndSubmit(p: Program, typed: seq<Typed>) returns (shown: real, r: ScoreResult)
    requires OnePerCode(typed)
    ensures AllEntered(p.weights, InputOf(typed)) <==> r.weighted == Some(shown)
    ensures !AllEntered(p.weights, InputOf(typed)) ==> r.weighted.None?
  {
    var lines;
    shown, lines := CalculateWeightedScore(p.weights, typed);
    r := CalculateScore(p, InputOf(typed));
  }

  /** The contributions shown add up to the number shown. */
  lemma {:induction false} LinesAddUp(ws: seq<Weight>, input: Input, lines: seq<Line>)
    requires |lines| == |ws| && forall k :: 0 <= k < |ws| ==> lines[k] == LineOf(ws[k], input)
    ensures SumOf(lines, (line: Line) => line.contribution) == Total(ws, input)
  {
    if ws != [] {
      LinesAddUp(ws[..|ws| - 1], input, lines[..|lines| - 1]);
    }
  }

  /** Each line names its subject, with the score that was typed for it, if one was. */
  lemma LineMeans(w: Weight, typed: seq<Typed>, k: nat)
    requires OnePerCode(typed) && !IsGpax(w.examCode)
    ensures LineOf(w, InputOf(typed)).examCode == w.examCode
    ensures k < |typed| && typed[k].code == w.examCode ==> LineOf(w, InputOf(typed)).raw == typed[k].value
    ensures (forall n :: 0 <= n < |typed| ==> typed[n].code != w.examCode) ==> LineOf(w, InputOf(typed)).raw == 0.0
    ensures w.percent.Some? ==> LineOf(w, InputOf(typed)).percent == w.percent.value
  {
    FieldsAreRead(typed, w.examCode);
  }

  /** Otherwise it is a lower bound on the score of every completion ... */
  lemma ShownIsLowerBound(ws: seq<Weight>, input: Input, done: Input)
    requires NonNegativeWeights(ws) && Completes(done, ws, input)
    ensures Total(ws, input) <= Total(ws, done)
    ensures AllEntered(ws, input) ==> Total(ws, input) == Total(ws, done)
  {
    if AllEntered(ws, input) {
      forall k | 0 <= k < |ws| ensures RawFor(ws[k], done) == RawFor(ws[k], input) {
        assert RawFor(ws[k], input).Some?;
      }
      FillingKeepsTotal(done, ws, input);
    }
    forall k | 0 <= k < |ws| ensures Part(ws[k], input) <= Part(ws[k], done) {
      var after := RawFor(ws[k], done);
      if RawFor(ws[k], input).None? {
        ContributionGrows(ws[k], 0.0, after.value);
      }
    }
    SumGrows(ws, w => Part(w, input), w => Part(w, done));
  }

  /** ... and the best such bound: filling the gaps with zeros is itself a completion and reaches it. */
  lemma LowerBoundIsReached(filled: Input, ws: seq<Weight>, input: Input)
    requires Filled(filled, ws, input)
    ensures Completes(filled, ws, input) && Total(ws, filled) == Total(ws, input)
  {
    FillingKeepsTotal(filled, ws, input);
  }
}
