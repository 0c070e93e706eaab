/** The services as they run: tables in fields, each method a sequence of reads and writes, proved to
    do exactly the atomic step of module Bookings and to keep the invariants. */
module BookingDesk {
  import opened Basics
  import opened RefundPolicy
  import opened WeeklyRules
  import opened Bookings
  import opened BookingInvariants
  import opened BookingRuns
  import opened SlipSteps
  import opened BusyList

  /** The method's answer and the tables agree with the step. */
  ghost predicate Does(refusal: Option<Refusal>, before: Db, after: Db, step: Result) {
    match step
    case Ok(db) => refusal.None? && after == db
    case Refused(why) => refusal == Some(why) && after == before
  }

  class Desk {
    const zone: int
    const cuts: Cuts
    var tutors: seq<TutorProfile>
    var bookings: seq<Booking>
    var requests: seq<Request>
    var intents: seq<Intent>
    var ledger: seq<LedgerRow>

    constructor (zone: int, cuts: Cuts, tutors: seq<TutorProfile>)
      requires ProfilesOk(tutors) && forall t :: 0 <= t < |tutors| ==> tutors[t].defectCount == 0
      ensures View() == Opening(zone, cuts, tutors) && Inv(View())
    {
      this.zone, this.cuts, this.tutors := zone, cuts, tutors;
      bookings, requests, intents, ledger := [], [], [], [];
      new;
      OpeningInv(zone, cuts, tutors);
    }

    /** The tables as one value. */
    function View(): Db
      reads this
    {
      Db(zone, cuts, tutors, bookings, requests, intents, ledger)
    }

    // ---- the guard and the busy list ------------------------------------------------------------

    /** The guard's third question: does a weekly block of the user's own profile meet the span? */
    method WithinUnavailability(user: User, span: Span) returns (hit: bool)
      requires ProfilesOk(tutors)
      ensures hit == RuleHit(View(), user, span)
    {
      if exists t :: 0 <= t < |tutors| && tutors[t].user == user {
        var t :| 0 <= t < |tutors| && tutors[t].user == user;
        assert RuleHit(View(), user, span) <==> Blocked(zone, tutors[t].rules, span);
        var intervals := ExpandWeeklyRules(zone, tutors[t].rules, span.lo, span.hi);
        ExpansionAnswersBlocked(zone, tutors[t].rules, span, span);
        for n := 0 to |intervals|
          invariant forall j :: 0 <= j < n ==> !Overlap(span, intervals[j])
        {
          if Overlap(span, intervals[n]) {
            assert intervals[n] in intervals;
            return true;
          }
        }
      }
      return false;
    }

    method AssertNoOverlap(user: User, start: int, minutes: int, exclude: Option<nat>)
      returns (hit: Option<ClashSource>)
      requires Refs(View()) && ProfilesOk(tutors)
      ensures hit == Guard(View(), user, Lesson(start, minutes), exclude)
    {
      var span := Lesson(start, minutes);
      if exists b :: 0 <= b < |bookings| && Some(b) != exclude && Involves(View(), b, user)
                     && Active(bookings[b].status) && Overlap(OwnSlot(bookings[b]), span) {
        return Some(ExistingBooking);
      }
      if exists b :: 0 <= b < |bookings| && Some(b) != exclude && Involves(View(), b, user)
                     && ProposedSlot(View(), b).Some? && Overlap(ProposedSlot(View(), b).value, span) {
        return Some(PostponeProposal);
      }
      var covered := WithinUnavailability(user, span);
      return if covered then Some(TutorUnavailability) else None;
    }

    /** Asked for the student, then for the tutor's user. */
    method AssertNoOverlapForBoth(student: User, tutorUser: User, start: int, minutes: int, exclude: Option<nat>)
      returns (clash: Option<ClashSource>)
      requires Refs(View()) && ProfilesOk(tutors)
      ensures clash == GuardBoth(View(), student, tutorUser, Lesson(start, minutes), exclude)
    {
      clash := AssertNoOverlap(student, start, minutes, exclude);
      if clash.None? { clash := AssertNoOverlap(tutorUser, start, minutes, exclude); }
    }

    /** The weekly blocks of the user's own profile, if the user is a tutor. */
    method Unavailability(user: User, from: int, to: int) returns (intervals: seq<Span>)
      requires ProfilesOk(tutors)
      ensures intervals == RulesBusy(View(), user, Span(from, to))
    {
      if exists t :: 0 <= t < |tutors| && tutors[t].user == user {
        var t :| 0 <= t < |tutors| && tutors[t].user == user;
        assert ProfileOf(View(), user) == Some(t);
        intervals := ExpandWeeklyRules(zone, tutors[t].rules, from, to);
      } else {
        intervals := [];
      }
    }

    /** The body of the loop over the bookings: the class itself, then its open proposal. */
    method PushRow(b: nat, user: User, from: int, to: int, busy: seq<Span>) returns (busy': seq<Span>)
      requires b < |bookings| && BookingRefs(View(), bookings[b])
      requires Involves(View(), b, user) && Active(bookings[b].status) && bookings[b].start < to
      ensures busy' == busy + BookingBusy(View(), b, user, Span(from, to))
    {
      busy' := busy;
      var k := bookings[b];
      var end := k.start + k.minutes * MINUTE;
      if end > from {
        busy' := busy' + [Span(k.start, end)];
      }
      if k.request.Some? && requests[k.request.value].status == Negotiating
         && requests[k.request.value].proposed.Some? {
        var p := requests[k.request.value].proposed.value;
        var pEnd := p.start + p.minutes * MINUTE;
        if p.start < to && pEnd > from {
          busy' := busy' + [Span(p.start, pEnd)];
        }
      }
    }

    method CollectBusy(user: User, from: int, to: int) returns (busy: seq<Span>)
      requires Refs(View()) && ProfilesOk(tutors)
      ensures busy == Busy(View(), user, Span(from, to))
    {
      busy := [];
      for b := 0 to |bookings|
        invariant busy == BookingsBusy(View(), user, Span(from, to), b)
      {
        var k := bookings[b];
        BookingsBusyNext(View(), user, Span(from, to), b);
        if Involves(View(), b, user) && Active(k.status) && k.start < to {
          busy := PushRow(b, user, from, to, busy);
        }
      }
      var intervals := Unavailability(user, from, to);
      busy := busy + intervals;
    }

    // ---- BookingsService ------------------------------------------------------------------------

    method CreateBooking(user: User, tutor: nat, start: int, minutes: nat, seats: Option<nat>, now: int)
      returns (refusal: Option<Refusal>)
      requires Inv(View())
      modifies this
      ensures Does(refusal, old(View()), View(), Create(old(View()), user, tutor, start, minutes, seats, now))
      ensures Inv(View())
    {
      refusal := CreateRefusal(View(), user, tutor, start, minutes, seats, now);
      if refusal.Some? { return; }
      var clash := AssertNoOverlapForBoth(user, tutors[tutor].user, start, minutes, None);
      if clash.Some? { return Some(Clash(clash.value)); }
      CreateKeeps(View(), user, tutor, start, minutes, seats, now);
      bookings := bookings + [NewBooking(View(), user, tutor, start, minutes, seats)];
    }

    method AcceptBooking(user: User, b: nat) returns (refusal: Option<Refusal>)
      requires Inv(View())
      modifies this`bookings
      ensures Does(refusal, old(View()), View(), Accept(old(View()), user, b)) && Inv(View())
    {
      if b >= |bookings| { return Some(NotFound); }
      var k := bookings[b];
      if tutors[k.tutor].user != user { return Some(Forbidden); }
      if k.status != Requested { return Some(BadRequest); }
      if k.phase != OneOnOne { return Some(BadRequest); }
      StepKeeps(View(), DoAccept(user, b));
      bookings := bookings[b := k.(status := Accepted)];
      return None;
    }

    method RejectBooking(user: User, b: nat) returns (refusal: Option<Refusal>)
      requires Inv(View())
      modifies this`bookings
      ensures Does(refusal, old(View()), View(), RejectByTutor(old(View()), user, b)) && Inv(View())
    {
      if b >= |bookings| { return Some(NotFound); }
      var k := bookings[b];
      if tutors[k.tutor].user != user { return Some(Forbidden); }
      if k.phase != OneOnOne { return Some(BadRequest); }
      if k.status != Requested { return Some(BadRequest); }
      StepKeeps(View(), DoReject(user, b));
      bookings := bookings[b := k.(status := BookingStatus.Rejected)];
      return None;
    }

    method CancelBooking(user: User, b: nat) returns (refusal: Option<Refusal>)
      requires Inv(View())
      modifies this`bookings
      ensures Does(refusal, old(View()), View(), CancelByStudent(old(View()), user, b)) && Inv(View())
    {
      if b >= |bookings| { return Some(NotFound); }
      var k := bookings[b];
      if k.student != user { return Some(Forbidden); }
      if k.phase != OneOnOne { return Some(BadRequest); }
      if k.status != Requested && k.status != Accepted { return Some(BadRequest); }
      StepKeeps(View(), DoCancel(user, b));
      bookings := bookings[b := k.(status := CancelledByStudent)];
      return None;
    }

    method ReportBooking(user: User, b: nat, now: int) returns (refusal: Option<Refusal>)
      requires Inv(View())
      modifies this`bookings, this`intents
      ensures Does(refusal, old(View()), View(), Report(old(View()), user, b, now)) && Inv(View())
    {
      if b >= |bookings| { return Some(NotFound); }
      var k := bookings[b];
      if k.student != user { return Some(Forbidden); }
      if k.reportEnds.None? || k.reportEnds.value < now { return Some(BadRequest); }
      StepKeeps(View(), DoReport(user, b, now));
      if k.intent.Some? && intents[k.intent.value].status == HeldInEscrow {
        intents := intents[k.intent.value := intents[k.intent.value].(status := Disputed)];
      }
      bookings := bookings[b := k.(status := BookingStatus.Reported)];
      return None;
    }

    // ---- AdminService ---------------------------------------------------------------------------

    method ApprovePaymentSlip(i: nat, now: int) returns (refusal: Option<Refusal>)
      requires Inv(View())
      modifies this`bookings, this`intents
      ensures Does(refusal, old(View()), View(), ApproveSlip(old(View()), i, now))
      ensures refusal.None? ==> (Inv(View()) <==> ReviewIsSafe(old(View()), i))
    {
      if i >= |intents| { return Some(NotFound); }
      if !AwaitsReview(intents[i].status) { return Some(BadRequest); }
      ReviewKeepsInvIff(View(), i, now);
      var b := intents[i].booking;
      intents := intents[i := intents[i].(status := HeldInEscrow)];
      if bookings[b].phase == OneOnOne {
        bookings := bookings[b := bookings[b].(status := Paid, reportEnds := Some(now + DAY))];
      }
      return None;
    }

    // ---- PostponeService --------------------------------------------------------------------------

    method InitiatePostpone(user: User, b: nat, reasonLength: nat, now: int) returns (refusal: Option<Refusal>)
      requires Inv(View())
      modifies this`bookings, this`requests
      ensures Does(refusal, old(View()), View(), Initiate(old(View()), user, b, reasonLength, now)) && Inv(View())
    {
      if !(5 <= reasonLength <= 500) { return Some(BadRequest); }
      if b >= |bookings| { return Some(NotFound); }
      if !Participant(View(), b, user) { return Some(Forbidden); }
      var k := bookings[b];
      if k.status != Paid { return Some(BadRequest); }
      if k.start <= now { return Some(BadRequest); }
      if k.request.Some? { return Some(BadRequest); }
      InitiateKeeps(View(), user, b, reasonLength, now);
      var role := if k.student == user then Student else Tutor;
      var r := |requests|;
      requests := requests + [Request(b, user, role, k.start - now < 12 * HOUR, Negotiating, None, None)];
      bookings := bookings[b := k.(status := PostponePending, request := Some(r))];
      return None;
    }

    method ProposeSlot(user: User, b: nat, start: int, minutes: nat, now: int) returns (refusal: Option<Refusal>)
      requires Inv(View())
      modifies this`requests
      ensures Does(refusal, old(View()), View(), Propose(old(View()), user, b, start, minutes, now)) && Inv(View())
    {
      if minutes !in {30, 60, 90, 120} { return Some(BadRequest); }
      if start < StartOfTomorrow(now) { return Some(BadRequest); }
      refusal := LoadRefusal(View(), user, b);
      if refusal.Some? { return; }
      var k := bookings[b];
      var r := k.request.value;
      if requests[r].initiator != user { return Some(Forbidden); }
      var clash := AssertNoOverlapForBoth(k.student, tutors[k.tutor].user, start, minutes, Some(b));
      if clash.Some? { return Some(Clash(clash.value)); }
      ProposeKeeps(View(), user, b, start, minutes, now);
      requests := requests[r := requests[r].(proposed := Some(Proposal(start, minutes)))];
    }

    method ConfirmSlot(user: User, b: nat) returns (refusal: Option<Refusal>)
      requires Inv(View())
      modifies this`bookings, this`requests, this`intents
      ensures Does(refusal, old(View()), View(), Confirm(old(View()), user, b)) && Inv(View())
    {
      refusal := LoadRefusal(View(), user, b);
      if refusal.Some? { return; }
      var k := bookings[b];
      var r := k.request.value;
      if requests[r].proposed.None? { return Some(BadRequest); }
      if requests[r].initiator == user { return Some(Forbidden); }
      var p := requests[r].proposed.value;
      var clash := AssertNoOverlapForBoth(k.student, tutors[k.tutor].user, p.start, p.minutes, Some(b));
      if clash.Some? { return Some(Clash(clash.value)); }
      if k.intent.None? { return Some(BadRequest); }
      StepKeeps(View(), DoConfirm(user, b));
      var created := |bookings|;
      requests := requests[r := requests[r].(status := Agreement, resolvedAs := Some(Outcome.Agreed))];
      bookings := bookings + [Clone(k, p)];
      intents := intents[k.intent.value := intents[k.intent.value].(booking := created)];
      bookings := bookings[b := k.(status := Postponed, intent := None, movedTo := Some(created))];
    }

    /** The one transaction that closes a negotiation without a new slot. */
    method ApplyResolution(b: nat, outcome: Outcome)
      requires Inv(View()) && OpenNegotiation(View(), b) && outcome != Outcome.Agreed
      modifies this
      ensures View() == Settle(old(View()), b, outcome) && Inv(View())
    {
      SettleKeeps(View(), b, outcome);
      var k := bookings[b];
      var r, i := k.request.value, k.intent.value;
      var original := intents[i].amount;
      var split := ComputeSplit(cuts, requests[r].role, requests[r].shortNotice, outcome, original);
      if split.tutor > 0 {
        intents := intents[i := intents[i].(amount := split.tutor, status := ReleasedForPayout)];
      } else {
        intents := intents[i := intents[i].(amount := 0, status := IntentStatus.Refunded)];
      }
      ledger := ledger + [LedgerRow(i, b, original, split.student, split.tutor, split.platform, ReasonCode(outcome))];
      bookings := bookings[b := k.(status := CancelledStatus(outcome))];
      requests := requests[r := requests[r].(status := Expired, resolvedAs := Some(outcome))];
      if IsDefect(outcome) {
        tutors := tutors[k.tutor := tutors[k.tutor].(defectCount := tutors[k.tutor].defectCount + 1)];
      }
    }

    method CancelNegotiation(user: User, b: nat) returns (refusal: Option<Refusal>)
      requires Inv(View())
      modifies this
      ensures Does(refusal, old(View()), View(), CancelPostpone(old(View()), user, b)) && Inv(View())
    {
      refusal := LoadRefusal(View(), user, b);
      if refusal.Some? { return; }
      NegotiationIsFunded(View(), b);
      ApplyResolution(b, CancelOutcome(requests[bookings[b].request.value].role));
    }

    method TimerFires(r: nat, engaged: bool) returns (refusal: Option<Refusal>)
      requires Inv(View())
      modifies this
      ensures Does(refusal, old(View()), View(), ResolveTimeout(old(View()), r, engaged)) && Inv(View())
    {
      if r >= |requests| || requests[r].status != Negotiating { return None; }
      assert RequestShape(View(), r);
      NegotiationIsFunded(View(), requests[r].booking);
      ApplyResolution(requests[r].booking, TimeoutOutcome(requests[r].role, engaged));
      return None;
    }
  }
}
