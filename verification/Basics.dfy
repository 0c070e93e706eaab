/** Values shared by every module: an optional value, instants in milliseconds,
    half-open time spans and the service's own calendar-day boundary. */
module Basics {

  datatype Option<+T> = None | Some(value: T)

  const MINUTE: int := 60_000
  const HOUR: int := 3_600_000
  const DAY: int := 86_400_000

  /** A half-open interval of instants: `lo` belongs to it, `hi` does not. */
  datatype Span = Span(lo: int, hi: int)

  /** The overlap test used by the guard: touching edges do not overlap. */
  predicate Overlap(a: Span, b: Span) {
    a.lo < b.hi && a.hi > b.lo
  }

  /** The span of a class of `minutes` minutes that begins at `start`. */
  function Lesson(start: int, minutes: int): Span {
    Span(start, start + minutes * MINUTE)
  }

  predicate Covers(s: Span, t: int) {
    s.lo <= t < s.hi
  }

  /** For spans that are not empty, the test says exactly that some instant lies in both. */
  lemma OverlapIsCommonInstant(a: Span, b: Span)
    requires a.lo < a.hi && b.lo < b.hi
    ensures Overlap(a, b) <==> exists t :: Covers(a, t) && Covers(b, t)
  {
    if Overlap(a, b) {
      var t := if a.lo < b.lo then b.lo else a.lo;
      assert Covers(a, t) && Covers(b, t);
    }
  }

  const BANGKOK: int := 25_200_000

  /** The instant at which the next calendar day begins in Bangkok. */
  function StartOfTomorrow(now: int): int {
    ((now + BANGKOK) / DAY + 1) * DAY - BANGKOK
  }
}
