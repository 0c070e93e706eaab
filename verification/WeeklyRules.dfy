/** Recurring weekly unavailability: the day-walking expansion, what it emits,
    and how many blocks an accepted availability window can produce. */
module WeeklyRules {
  import opened Basics

  /** Minutes count from local midnight; weekday 0 is Sunday. */
  datatype Rule = Rule(weekday: int, startMinute: int, endMinute: int)

  /** What the rule editor's schema accepts. */
  predicate ValidRule(r: Rule) {
    0 <= r.weekday <= 6 && 0 <= r.startMinute < r.endMinute <= 1440
  }

  predicate ValidRules(rules: seq<Rule>) {
    forall k :: 0 <= k < |rules| ==> ValidRule(rules[k])
  }

  /** Local calendar days are numbered from 1 January 1970, a Thursday; `zone` is the
      fixed distance of the local clock from UTC. */
  function DayOf(zone: int, t: int): int {
    (t + zone) / DAY
  }

  function Midnight(zone: int, day: int): int {
    day * DAY - zone
  }

  function Weekday(day: int): int {
    (day + 4) % 7
  }

  /** The concrete block that a rule puts on a day. */
  function Block(zone: int, r: Rule, day: int): Span {
    Span(Midnight(zone, day) + r.startMinute * MINUTE, Midnight(zone, day) + r.endMinute * MINUTE)
  }

  /** Rule number `rule` strikes on day `day`. */
  datatype Hit = Hit(rule: nat, day: int)

  /** The declarative reading of the rules: all weeks, past and future. */
  predicate Occurs(zone: int, rules: seq<Rule>, window: Span, h: Hit) {
    && h.rule < |rules|
    && rules[h.rule].weekday == Weekday(h.day)
    && Overlap(Block(zone, rules[h.rule], h.day), window)
  }

  /** Some weekly block, on any day at all, meets the span. */
  ghost predicate Blocked(zone: int, rules: seq<Rule>, span: Span) {
    exists h: Hit :: Occurs(zone, rules, span, h)
  }

  // ---- what a block is, by the clock on the wall ------------------------------------

  /** The instant falls on the rule's weekday and in its minutes. Day 0 is a Thursday, day 3 the first Sunday. */
  predicate FallsIn(zone: int, r: Rule, t: int) {
    && ((t + zone) / 86_400_000 - 3) % 7 == r.weekday
    && r.startMinute <= (t + zone) % 86_400_000 / 60_000 < r.endMinute
  }

  lemma WallClock(day: int, minutes: int, x: int)
    requires 0 <= minutes <= 1440
    ensures day * DAY + minutes * MINUTE <= x < (day + 1) * DAY <==> x / DAY == day && minutes <= x % DAY / MINUTE
    ensures day * DAY <= x < day * DAY + minutes * MINUTE <==> x / DAY == day && x % DAY / MINUTE < minutes
  {
  }

  /** A rule's block on a day holds the instants of that local day between its two minutes. */
  lemma BlockCovers(zone: int, r: Rule, day: int, t: int)
    requires ValidRule(r)
    ensures Covers(Block(zone, r, day), t)
            <==> (t + zone) / DAY == day && r.startMinute <= (t + zone) % DAY / MINUTE < r.endMinute
  {
    WallClock(day, r.startMinute, t + zone);
    WallClock(day, r.endMinute, t + zone);
  }

  /** A span meets a weekly block if and only if some instant of it falls in a rule. */
  lemma BlockedMeans(zone: int, rules: seq<Rule>, span: Span)
    requires ValidRules(rules) && span.lo < span.hi
    ensures Blocked(zone, rules, span)
            <==> exists t, k :: span.lo <= t < span.hi && 0 <= k < |rules| && FallsIn(zone, rules[k], t)
  {
    if h: Hit :| Occurs(zone, rules, span, h) {
      var block := Block(zone, rules[h.rule], h.day);
      OverlapIsCommonInstant(block, span);
      var t :| Covers(block, t) && Covers(span, t);
      BlockCovers(zone, rules[h.rule], h.day, t);
      assert FallsIn(zone, rules[h.rule], t);
    }
    if t, k :| span.lo <= t < span.hi && 0 <= k < |rules| && FallsIn(zone, rules[k], t) {
      var h := Hit(k, (t + zone) / DAY);
      BlockCovers(zone, rules[k], h.day, t);
      assert Covers(Block(zone, rules[k], h.day), t) && Covers(span, t);
      OverlapIsCommonInstant(Block(zone, rules[k], h.day), span);
      assert Occurs(zone, rules, span, h);
    }
  }

  // ---- the walk -------------------------------------------------------------------

  function DayHits(zone: int, rules: seq<Rule>, window: Span, day: int, k: nat): seq<Hit>
    requires k <= |rules|
  {
    if k == 0 then []
    else
      DayHits(zone, rules, window, day, k - 1)
      + (if Occurs(zone, rules, window, Hit(k - 1, day)) then [Hit(k - 1, day)] else [])
  }

  /** Hits on the days from the window's first day up to, not including, `last`. */
  function Walk(zone: int, rules: seq<Rule>, window: Span, last: int): seq<Hit>
    decreases last - DayOf(zone, window.lo)
  {
    if last <= DayOf(zone, window.lo) then []
    else Walk(zone, rules, window, last - 1) + DayHits(zone, rules, window, last - 1, |rules|)
  }

  /** The first day, on or after the window's first, whose midnight is not before its end. */
  function EndDay(zone: int, window: Span): int {
    var first := DayOf(zone, window.lo);
    var past := DayOf(zone, window.hi - 1) + 1;
    if past < first then first else past
  }

  function Hits(zone: int, rules: seq<Rule>, window: Span): seq<Hit> {
    Walk(zone, rules, window, EndDay(zone, window))
  }

  predicate InRange(rules: seq<Rule>, hits: seq<Hit>) {
    forall j :: 0 <= j < |hits| ==> hits[j].rule < |rules|
  }

  function Blocks(zone: int, rules: seq<Rule>, hits: seq<Hit>): (out: seq<Span>)
    requires InRange(rules, hits)
    ensures |out| == |hits|
    ensures forall j :: 0 <= j < |hits| ==> out[j] == Block(zone, rules[hits[j].rule], hits[j].day)
  {
    seq(|hits|, j requires 0 <= j < |hits| => Block(zone, rules[hits[j].rule], hits[j].day))
  }

  predicate Apart(hits: seq<Hit>) {
    forall i, j :: 0 <= i < j < |hits| ==> hits[i] != hits[j]
  }

  lemma ApartTogether(a: seq<Hit>, b: seq<Hit>)
    requires Apart(a) && Apart(b) && forall h :: h in a ==> h !in b
    ensures Apart(a + b)
  {
    assert forall j :: 0 <= j < |a| ==> a[j] in a;
  }

  lemma {:induction false} DayHas(zone: int, rules: seq<Rule>, window: Span, day: int, k: nat, h: Hit)
    requires k <= |rules|
    ensures h in DayHits(zone, rules, window, day, k)
            <==> h.day == day && h.rule < k && Occurs(zone, rules, window, h)
  {
    if k > 0 {
      DayHas(zone, rules, window, day, k - 1, h);
    }
  }

  lemma DayHitsExact(zone: int, rules: seq<Rule>, window: Span, day: int, k: nat)
    requires k <= |rules|
    ensures forall h: Hit ::
              h in DayHits(zone, rules, window, day, k)
              <==> h.day == day && h.rule < k && Occurs(zone, rules, window, h)
  {
    forall h: Hit
      ensures h in DayHits(zone, rules, window, day, k) <==> h.day == day && h.rule < k && Occurs(zone, rules, window, h)
    {
      DayHas(zone, rules, window, day, k, h);
    }
  }

  lemma WalkNext(zone: int, rules: seq<Rule>, window: Span, last: int, h: Hit)
    requires DayOf(zone, window.lo) < last
    ensures h in Walk(zone, rules, window, last)
            <==> h in Walk(zone, rules, window, last - 1) || h in DayHits(zone, rules, window, last - 1, |rules|)
  {
  }

  lemma {:induction false} WalkHas(zone: int, rules: seq<Rule>, window: Span, last: int, h: Hit)
    ensures h in Walk(zone, rules, window, last)
            <==> DayOf(zone, window.lo) <= h.day < last && Occurs(zone, rules, window, h)
    decreases last - DayOf(zone, window.lo)
  {
    if last > DayOf(zone, window.lo) {
      WalkNext(zone, rules, window, last, h);
      WalkHas(zone, rules, window, last - 1, h);
      DayHas(zone, rules, window, last - 1, |rules|, h);
    }
  }

  lemma {:induction false} DayApart(zone: int, rules: seq<Rule>, window: Span, day: int, k: nat)
    requires k <= |rules|
    ensures forall h :: h in DayHits(zone, rules, window, day, k) ==> h.day == day && h.rule < k
    ensures Apart(DayHits(zone, rules, window, day, k))
  {
    if k > 0 {
      DayApart(zone, rules, window, day, k - 1);
    }
  }

  lemma {:induction false} WalkApart(zone: int, rules: seq<Rule>, window: Span, last: int)
    ensures forall h :: h in Walk(zone, rules, window, last) ==> h.day < last
    ensures Apart(Walk(zone, rules, window, last))
    decreases last - DayOf(zone, window.lo)
  {
    if last > DayOf(zone, window.lo) {
      WalkApart(zone, rules, window, last - 1);
      DayApart(zone, rules, window, last - 1, |rules|);
      ApartTogether(Walk(zone, rules, window, last - 1), DayHits(zone, rules, window, last - 1, |rules|));
    }
  }

  /** A valid rule's block that meets the window lies on a day the walk visits. */
  lemma OccurrenceIsWalked(zone: int, rules: seq<Rule>, window: Span, h: Hit)
    requires ValidRules(rules) && Occurs(zone, rules, window, h)
    ensures DayOf(zone, window.lo) <= h.day < EndDay(zone, window)
  {
    var r := rules[h.rule];
    assert ValidRule(r);
    assert window.lo + zone < (h.day + 1) * DAY;
    assert h.day * DAY < window.hi + zone;
  }

  /** The expansion emits exactly the weekly occurrences that meet the window, each of them once. */
  lemma ExpansionExact(zone: int, rules: seq<Rule>, window: Span)
    requires ValidRules(rules)
    ensures forall h: Hit :: h in Hits(zone, rules, window) <==> Occurs(zone, rules, window, h)
    ensures Apart(Hits(zone, rules, window)) && InRange(rules, Hits(zone, rules, window))
  {
    WalkApart(zone, rules, window, EndDay(zone, window));
    forall h: Hit ensures h in Hits(zone, rules, window) <==> Occurs(zone, rules, window, h) {
      WalkHas(zone, rules, window, EndDay(zone, window), h);
      if Occurs(zone, rules, window, h) {
        OccurrenceIsWalked(zone, rules, window, h);
      }
    }
  }

  lemma OccursInWider(zone: int, rules: seq<Rule>, window: Span, span: Span, h: Hit)
    requires ValidRules(rules) && Occurs(zone, rules, span, h)
    requires window.lo <= span.lo && span.hi <= window.hi
    ensures h in Hits(zone, rules, window)
  {
    ExpansionExact(zone, rules, window);
    assert Occurs(zone, rules, window, h);
  }

  lemma EmittedBlocks(zone: int, rules: seq<Rule>, window: Span, span: Span, j: nat)
    requires ValidRules(rules) && InRange(rules, Hits(zone, rules, window)) && j < |Hits(zone, rules, window)|
    requires Overlap(span, Blocks(zone, rules, Hits(zone, rules, window))[j])
    ensures Blocked(zone, rules, span)
  {
    ExpansionExact(zone, rules, window);
    var h := Hits(zone, rules, window)[j];
    assert h in Hits(zone, rules, window);
    assert Occurs(zone, rules, span, h);
  }

  /** Expanding the rules over any window that contains a span is a correct way to ask whether
      a weekly block meets that span; the guard uses the span itself, the busy list a wider one. */
  lemma ExpansionAnswersBlocked(zone: int, rules: seq<Rule>, window: Span, span: Span)
    requires ValidRules(rules)
    requires window.lo <= span.lo && span.hi <= window.hi
    ensures InRange(rules, Hits(zone, rules, window))
    ensures (exists b :: b in Blocks(zone, rules, Hits(zone, rules, window)) && Overlap(span, b))
            <==> Blocked(zone, rules, span)
  {
    ExpansionExact(zone, rules, window);
    var hits := Hits(zone, rules, window);
    var out := Blocks(zone, rules, hits);
    if b :| b in out && Overlap(span, b) {
      var j :| 0 <= j < |out| && out[j] == b;
      EmittedBlocks(zone, rules, window, span, j);
    }
    if Blocked(zone, rules, span) {
      var h: Hit :| Occurs(zone, rules, span, h);
      OccursInWider(zone, rules, window, span, h);
      var j :| 0 <= j < |hits| && hits[j] == h;
      assert out[j] in out && Overlap(span, out[j]);
    }
  }

  // ---- the loop -------------------------------------------------------------------

  /** The inner pass: the rules that fall on the cursor's weekday and meet the window. */
  method ExpandDay(zone: int, rules: seq<Rule>, window: Span, cursor: int, ghost day: int, out: seq<Span>)
    returns (out': seq<Span>)
    requires cursor == Midnight(zone, day)
    ensures InRange(rules, DayHits(zone, rules, window, day, |rules|))
    ensures out' == out + Blocks(zone, rules, DayHits(zone, rules, window, day, |rules|))
  {
    out' := out;
    var weekday := Weekday((cursor + zone) / DAY);
    for k := 0 to |rules|
      invariant InRange(rules, DayHits(zone, rules, window, day, k))
      invariant out' == out + Blocks(zone, rules, DayHits(zone, rules, window, day, k))
    {
      var r := rules[k];
      if r.weekday == weekday {
        var start := cursor + r.startMinute * MINUTE;
        var end := cursor + r.endMinute * MINUTE;
        if start < window.hi && end > window.lo {
          out' := out' + [Span(start, end)];
        }
      }
    }
  }

  /** The cursor has passed the window exactly when the walk has reached the end day. */
  lemma CursorReachesEnd(zone: int, window: Span, day: int)
    requires DayOf(zone, window.lo) <= day <= EndDay(zone, window)
    ensures Midnight(zone, day) < window.hi <==> day < EndDay(zone, window)
  {
  }

  lemma {:induction false} NoRulesNoHits(zone: int, window: Span, last: int)
    ensures Walk(zone, [], window, last) == []
    decreases last - DayOf(zone, window.lo)
  {
    if last > DayOf(zone, window.lo) {
      NoRulesNoHits(zone, window, last - 1);
    }
  }

  lemma BlocksTogether(zone: int, rules: seq<Rule>, a: seq<Hit>, b: seq<Hit>)
    requires InRange(rules, a) && InRange(rules, b)
    ensures InRange(rules, a + b)
    ensures Blocks(zone, rules, a + b) == Blocks(zone, rules, a) + Blocks(zone, rules, b)
  {
  }

  /** The expansion as the service runs it: a cursor moved from midnight to midnight and an
      inner pass over the rules. */
  method ExpandWeeklyRules(zone: int, rules: seq<Rule>, from: int, to: int) returns (out: seq<Span>)
    ensures InRange(rules, Hits(zone, rules, Span(from, to)))
    ensures out == Blocks(zone, rules, Hits(zone, rules, Span(from, to)))
  {
    out := [];
    if |rules| == 0 {
      NoRulesNoHits(zone, Span(from, to), EndDay(zone, Span(from, to)));
      return;
    }
    var window := Span(from, to);
    ghost var last := EndDay(zone, window);
    ghost var hits: seq<Hit> := [];
    ghost var day := DayOf(zone, from);
    var cursor := Midnight(zone, DayOf(zone, from));
    while cursor < to
      invariant cursor == Midnight(zone, day) && DayOf(zone, from) <= day <= last
      invariant hits == Walk(zone, rules, window, day)
      invariant InRange(rules, hits) && out == Blocks(zone, rules, hits)
    {
      CursorReachesEnd(zone, window, day);
      out := ExpandDay(zone, rules, window, cursor, day, out);
      BlocksTogether(zone, rules, hits, DayHits(zone, rules, window, day, |rules|));
      hits := hits + DayHits(zone, rules, window, day, |rules|);
      day := day + 1;
      cursor := cursor + DAY;
    }
    CursorReachesEnd(zone, window, day);
  }

  // ---- how many blocks a window can produce ------------------------------------------

  const MAX_WINDOW: int := 31 * DAY

  datatype Window = Admitted(span: Span) | NotAdmitted

  /** The check on the `from` and `to` query parameters; `None` is a date that does not parse. */
  function ParseAvailabilityWindow(from: Option<int>, to: Option<int>): Window {
    if from.None? || to.None? then NotAdmitted
    else if from.value >= to.value then NotAdmitted
    else if to.value - from.value > MAX_WINDOW then NotAdmitted
    else Admitted(Span(from.value, to.value))
  }

  /** Two dates in order, at most 31 days apart, and nothing else; the window is the time between them. */
  lemma AdmittedIff(from: Option<int>, to: Option<int>)
    ensures ParseAvailabilityWindow(from, to).Admitted?
            <==> from.Some? && to.Some? && from.value < to.value <= from.value + 2_678_400_000
    ensures ParseAvailabilityWindow(from, to).Admitted? ==>
              var span := ParseAvailabilityWindow(from, to).span;
              Some(span.lo) == from && Some(span.hi) == to
  {
  }

  function CountRule(hits: seq<Hit>, rule: nat): nat {
    if |hits| == 0 then 0
    else CountRule(hits[..|hits| - 1], rule) + (if hits[|hits| - 1].rule == rule then 1 else 0)
  }

  lemma {:induction false} CountRuleAppend(a: seq<Hit>, b: seq<Hit>, rule: nat)
    ensures CountRule(a + b, rule) == CountRule(a, rule) + CountRule(b, rule)
  {
    if |b| == 0 {
      assert a + b == a;
    } else {
      CountRuleAppend(a, b[..|b| - 1], rule);
      assert (a + b)[..|a + b| - 1] == a + b[..|b| - 1];
    }
  }

  lemma {:induction false} DayCount(zone: int, rules: seq<Rule>, window: Span, day: int, k: nat, rule: nat)
    requires k <= |rules| && rule < |rules|
    ensures CountRule(DayHits(zone, rules, window, day, k), rule)
            <= if rule < k && rules[rule].weekday == Weekday(day) then 1 else 0
  {
    if k > 0 {
      DayCount(zone, rules, window, day, k - 1, rule);
      var before := DayHits(zone, rules, window, day, k - 1);
      if Occurs(zone, rules, window, Hit(k - 1, day)) {
        assert (before + [Hit(k - 1, day)])[..|before|] == before;
      } else {
        assert before + [] == before;
      }
    }
  }

  /** How many days from `first` up to, not including, `last` fall on the weekday. */
  function Matches(weekday: int, first: int, last: int): nat
    decreases last - first
  {
    if last <= first then 0
    else Matches(weekday, first, last - 1) + (if Weekday(last - 1) == weekday then 1 else 0)
  }

  lemma {:induction false} MatchesBound(weekday: int, first: int, last: int)
    requires 0 <= weekday <= 6 && first <= last
    ensures Matches(weekday, first, last) == (last + 3 - weekday) / 7 - (first + 3 - weekday) / 7
    decreases last - first
  {
    if first < last {
      MatchesBound(weekday, first, last - 1);
    }
  }

  lemma WalkCountNext(zone: int, rules: seq<Rule>, window: Span, last: int, rule: nat)
    requires rule < |rules| && DayOf(zone, window.lo) < last
    ensures CountRule(Walk(zone, rules, window, last), rule)
            <= CountRule(Walk(zone, rules, window, last - 1), rule)
               + if rules[rule].weekday == Weekday(last - 1) then 1 else 0
  {
    DayCount(zone, rules, window, last - 1, |rules|, rule);
    CountRuleAppend(Walk(zone, rules, window, last - 1), DayHits(zone, rules, window, last - 1, |rules|), rule);
  }

  /** A count that starts at nothing and grows only on the weekday is bounded by the matching days. */
  lemma {:induction false} GrowsOnWeekday(count: int -> nat, weekday: int, first: int, last: int)
    requires count(first) == 0 && first <= last
    requires forall day :: first < day <= last ==> count(day) <= count(day - 1) + if weekday == Weekday(day - 1) then 1 else 0
    ensures count(last) <= Matches(weekday, first, last)
    decreases last - first
  {
    if first < last {
      GrowsOnWeekday(count, weekday, first, last - 1);
    }
  }

  lemma WalkCount(zone: int, rules: seq<Rule>, window: Span, first: int, last: int, rule: nat)
    requires rule < |rules| && first == DayOf(zone, window.lo) <= last
    ensures CountRule(Walk(zone, rules, window, last), rule) <= Matches(rules[rule].weekday, first, last)
  {
    forall day | first < day <= last
      ensures CountRule(Walk(zone, rules, window, day), rule)
              <= CountRule(Walk(zone, rules, window, day - 1), rule)
                 + if rules[rule].weekday == Weekday(day - 1) then 1 else 0
    {
      WalkCountNext(zone, rules, window, day, rule);
    }
    GrowsOnWeekday(day => CountRule(Walk(zone, rules, window, day), rule), rules[rule].weekday, first, last);
  }

  /** An accepted window makes the expansion emit at most five blocks for each rule. */
  lemma AtMostFivePerRule(zone: int, rules: seq<Rule>, from: Option<int>, to: Option<int>, rule: nat)
    requires rule < |rules| && ValidRule(rules[rule])
    requires ParseAvailabilityWindow(from, to).Admitted?
    ensures CountRule(Hits(zone, rules, ParseAvailabilityWindow(from, to).span), rule) <= 5
  {
    var window := ParseAvailabilityWindow(from, to).span;
    var first, last := DayOf(zone, window.lo), EndDay(zone, window);
    assert first <= last <= first + 32;
    WalkCount(zone, rules, window, first, last, rule);
    MatchesBound(rules[rule].weekday, first, last);
  }
}
