/** Whole journeys that nothing stands in the way of: a class from its request to the payout, one that is
    reported, and one that is moved. */
module Journeys {
  import opened Basics
  import opened Bookings
  import opened BookingInvariants
  import opened BookingRuns
  import opened GroupOnCore
  import opened Permissions

  /** One more step on the way. */
  lemma {:induction false} LeadsOn(db: Db, es: seq<Event>, mid: Db, e: Event)
    requires Leads(db, es, mid) && Refs(mid) && Orderly(mid, e) && Step(mid, e).Ok?
    ensures Leads(db, es + [e], Step(mid, e).db)
    decreases |es|
  {
    if es == [] {
      OneStepLeads(mid, e);
      assert es + [e] == [e];
    } else {
      LeadsOn(Step(db, es[0]).db, es[1..], mid, e);
      assert (es + [e])[0] == es[0] && (es + [e])[1..] == es[1..] + [e];
    }
  }

  /** The tables with one more booking and, once it is opened, its intent. */
  function With(db: Db, k: Booking, intents: seq<Intent>): Db {
    db.(bookings := db.bookings + [k], intents := db.intents + intents)
  }

  lemma LastReplaced<T>(s: seq<T>, x: T, y: T)
    ensures (s + [x])[|s|] == x && (s + [x])[|s| := y] == s + [y]
  {
  }

  /** A one-on-one class just asked for. */
  function ClassAsked(db: Db, user: User, tutor: nat, start: int, minutes: nat): Booking
    requires tutor < |db.tutors|
  {
    Booking(user, tutor, Requested, start, minutes, ClassTotal(db.tutors[tutor].hourlyRate, minutes, 1), None,
            OneOnOne, None, None, None)
  }

  lemma AcceptGoesThrough(db: Db, k: Booking)
    requires Refs(With(db, k, [])) && k.status == Requested && k.phase == OneOnOne
    ensures k.tutor < |db.tutors|
    ensures Step(With(db, k, []), DoAccept(db.tutors[k.tutor].user, |db.bookings|))
            == Result.Ok(With(db, k.(status := Accepted), []))
  {
    assert BookingRefs(With(db, k, []), With(db, k, []).bookings[|db.bookings|]);
    LastReplaced(db.bookings, k, k.(status := Accepted));
  }

  lemma OpeningGoesThrough(db: Db, k: Booking)
    requires Refs(With(db, k, [])) && k.status == Accepted && k.phase == OneOnOne && k.intent.None?
    ensures Step(With(db, k, []), DoOpenIntent(k.student, |db.bookings|))
            == Result.Ok(With(db, k.(intent := Some(|db.intents|)),
                              [Intent(|db.bookings|, k.student, k.amount, PendingTransfer)]))
  {
    LastReplaced(db.bookings, k, k.(intent := Some(|db.intents|)));
    assert db.intents + [] == db.intents;
  }

  lemma SlipGoesThrough(db: Db, k: Booking, x: Intent)
    requires Refs(With(db, k, [x]))
    ensures Step(With(db, k, [x]), DoUploadSlip(x.payer, |db.intents|))
            == Result.Ok(With(db, k, [x.(status := SlipUploaded)]))
  {
    LastReplaced(db.intents, x, x.(status := SlipUploaded));
  }

  lemma ApprovalGoesThrough(db: Db, k: Booking, x: Intent, at: int)
    requires Refs(With(db, k, [x])) && x.booking == |db.bookings| && x.status == SlipUploaded && k.phase == OneOnOne
    ensures Step(With(db, k, [x]), DoApproveSlip(|db.intents|, at))
            == Result.Ok(With(db, k.(status := Paid, reportEnds := Some(at + 86_400_000)), [x.(status := HeldInEscrow)]))
  {
    LastReplaced(db.intents, x, x.(status := HeldInEscrow));
    LastReplaced(db.bookings, k, k.(status := Paid, reportEnds := Some(at + 86_400_000)));
  }

  lemma ReleaseGoesThrough(db: Db, k: Booking, x: Intent, at: int)
    requires Refs(With(db, k, [x])) && k.status == Paid && k.intent == Some(|db.intents|) && x.status == HeldInEscrow
    requires k.reportEnds.Some? && k.reportEnds.value <= at
    ensures Step(With(db, k, [x]), DoRelease(|db.bookings|, at))
            == Result.Ok(With(db, k.(status := Completed), [x.(status := ReleasedForPayout)]))
  {
    LastReplaced(db.intents, x, x.(status := ReleasedForPayout));
    LastReplaced(db.bookings, k, k.(status := Completed));
  }

  lemma ReportGoesThrough(db: Db, k: Booking, x: Intent, at: int)
    requires Refs(With(db, k, [x])) && k.intent == Some(|db.intents|) && x.status == HeldInEscrow
    requires k.reportEnds.Some? && at <= k.reportEnds.value
    ensures Step(With(db, k, [x]), DoReport(k.student, |db.bookings|, at))
            == Result.Ok(With(db, k.(status := BookingStatus.Reported), [x.(status := Disputed)]))
  {
    LastReplaced(db.intents, x, x.(status := Disputed));
    LastReplaced(db.bookings, k, k.(status := BookingStatus.Reported));
  }

  /** The steps that lead from the request of class `k` to its payment. */
  function Paying(db: Db, create: Event, k: Booking, approved: int): seq<Event>
    requires k.tutor < |db.tutors|
  {
    [create] + [DoAccept(db.tutors[k.tutor].user, |db.bookings|)] + [DoOpenIntent(k.student, |db.bookings|)]
    + [DoUploadSlip(k.student, |db.intents|)] + [DoApproveSlip(|db.intents|, approved)]
  }

  lemma RequestGoesThrough(db: Db, user: User, tutor: nat, start: int, minutes: nat, now: int)
    requires TimedInv(db) && MayCreate(db, user, tutor, start, minutes, None, now)
    ensures var create := DoCreate(user, tutor, start, minutes, None, now);
            && Step(db, create) == Result.Ok(With(db, ClassAsked(db, user, tutor, start, minutes), []))
            && Inv(Step(db, create).db) && Leads(db, [create], Step(db, create).db)
  {
    var create := DoCreate(user, tutor, start, minutes, None, now);
    CreateAcceptedIff(db, user, tutor, start, minutes, None, now);
    assert db.intents + [] == db.intents;
    StepKeeps(db, create);
    OneStepLeads(db, create);
  }

  lemma GoesOn(db: Db, es: seq<Event>, mid: Db, e: Event, next: Db)
    requires Inv(mid) && Leads(db, es, mid) && Orderly(mid, e) && Step(mid, e) == Result.Ok(next)
    ensures Leads(db, es + [e], next) && Inv(next)
  {
    LeadsOn(db, es, mid, e);
    StepKeeps(mid, e);
  }

  lemma AnsweredAndBilled(db: Db, es: seq<Event>, k: Booking)
    requires Inv(With(db, k, [])) && Leads(db, es, With(db, k, [])) && k.tutor < |db.tutors|
    requires k.status == Requested && k.phase == OneOnOne && k.intent.None?
    ensures var billed := With(db, k.(status := Accepted, intent := Some(|db.intents|)),
                               [Intent(|db.bookings|, k.student, k.amount, PendingTransfer)]);
            Inv(billed)
            && Leads(db, es + [DoAccept(db.tutors[k.tutor].user, |db.bookings|)]
                         + [DoOpenIntent(k.student, |db.bookings|)], billed)
  {
    var b, answered := |db.bookings|, k.(status := Accepted);
    AcceptGoesThrough(db, k);
    GoesOn(db, es, With(db, k, []), DoAccept(db.tutors[k.tutor].user, b), With(db, answered, []));
    OpeningGoesThrough(db, answered);
    GoesOn(db, es + [DoAccept(db.tutors[k.tutor].user, b)], With(db, answered, []), DoOpenIntent(k.student, b),
           With(db, answered.(intent := Some(|db.intents|)), [Intent(b, k.student, k.amount, PendingTransfer)]));
  }

  /** Registering and reviewing the first slip of an accepted class is always in order: it still holds its time. */
  lemma FirstSlipIsOrderly(db: Db, k: Booking, x: Intent, at: int)
    requires Inv(With(db, k, [x])) && x.booking == |db.bookings|
    requires k.status == Accepted && k.request.None? && x.status in {PendingTransfer, SlipUploaded}
    ensures Orderly(With(db, k, [x]), DoUploadSlip(x.payer, |db.intents|))
    ensures Orderly(With(db, k, [x]), DoApproveSlip(|db.intents|, at))
  {
    var db', b := With(db, k, [x]), |db.bookings|;
    assert db'.bookings[b] == k && db'.intents[|db.intents|] == x;
    assert BookingShape(db', b) && Conserved(db', |db.intents|);
    assert Reserves(db', b, OwnSlot(k));
  }

  lemma SlipIsApproved(db: Db, es: seq<Event>, k: Booking, x: Intent, at: int)
    requires Inv(With(db, k, [x])) && Leads(db, es, With(db, k, [x])) && x.booking == |db.bookings|
    requires k.status == Accepted && k.phase == OneOnOne && k.request.None? && x.status == PendingTransfer
    ensures var paid := With(db, k.(status := Paid, reportEnds := Some(at + 86_400_000)), [x.(status := HeldInEscrow)]);
            Inv(paid) && Leads(db, es + [DoUploadSlip(x.payer, |db.intents|)] + [DoApproveSlip(|db.intents|, at)], paid)
  {
    var i, waiting := |db.intents|, x.(status := SlipUploaded);
    SlipGoesThrough(db, k, x);
    FirstSlipIsOrderly(db, k, x, at);
    GoesOn(db, es, With(db, k, [x]), DoUploadSlip(x.payer, i), With(db, k, [waiting]));
    ApprovalGoesThrough(db, k, waiting, at);
    FirstSlipIsOrderly(db, k, waiting, at);
    GoesOn(db, es + [DoUploadSlip(x.payer, i)], With(db, k, [waiting]), DoApproveSlip(i, at),
           With(db, k.(status := Paid, reportEnds := Some(at + 86_400_000)), [x.(status := HeldInEscrow)]));
  }

  /** The class of the request `k`, further on. */
  function Further(db: Db, k: Booking, status: BookingStatus, paidAt: int): Booking {
    k.(status := status, reportEnds := Some(paidAt + 86_400_000), intent := Some(|db.intents|))
  }

  function IntentOf(db: Db, k: Booking, status: IntentStatus): Intent {
    Intent(|db.bookings|, k.student, k.amount, status)
  }

  lemma PaidFromRequest(db: Db, create: Event, k: Booking, approved: int)
    requires Inv(With(db, k, [])) && Leads(db, [create], With(db, k, [])) && k.tutor < |db.tutors|
    requires k.status == Requested && k.phase == OneOnOne && k.intent.None? && k.request.None?
    ensures var paid := With(db, Further(db, k, Paid, approved), [IntentOf(db, k, HeldInEscrow)]);
            Inv(paid) && Leads(db, Paying(db, create, k, approved), paid)
  {
    var b := |db.bookings|;
    AnsweredAndBilled(db, [create], k);
    SlipIsApproved(db, [create] + [DoAccept(db.tutors[k.tutor].user, b)] + [DoOpenIntent(k.student, b)],
                   k.(status := Accepted, intent := Some(|db.intents|)), IntentOf(db, k, PendingTransfer), approved);
  }

  /** A permitted request for a one-on-one class can be answered, billed, paid and approved; nothing else changes. */
  lemma PaidClass(db: Db, user: User, tutor: nat, start: int, minutes: nat, now: int, approved: int)
    requires TimedInv(db) && MayCreate(db, user, tutor, start, minutes, None, now)
    ensures var k := ClassAsked(db, user, tutor, start, minutes);
            var paid := With(db, Further(db, k, Paid, approved), [IntentOf(db, k, HeldInEscrow)]);
            Inv(paid) && Leads(db, Paying(db, DoCreate(user, tutor, start, minutes, None, now), k, approved), paid)
  {
    RequestGoesThrough(db, user, tutor, start, minutes, now);
    PaidFromRequest(db, DoCreate(user, tutor, start, minutes, None, now), ClassAsked(db, user, tutor, start, minutes),
                    approved);
  }

  /** A day after the approval the daily job pays the tutor the price. */
  lemma PayoutOfClass(db: Db, user: User, tutor: nat, start: int, minutes: nat, now: int, approved: int, at: int)
    requires TimedInv(db) && MayCreate(db, user, tutor, start, minutes, None, now) && approved + 86_400_000 <= at
    ensures var k := ClassAsked(db, user, tutor, start, minutes);
            Leads(db, Paying(db, DoCreate(user, tutor, start, minutes, None, now), k, approved)
                      + [DoRelease(|db.bookings|, at)],
                  With(db, Further(db, k, Completed, approved), [IntentOf(db, k, ReleasedForPayout)]))
  {
    var k := ClassAsked(db, user, tutor, start, minutes);
    var paid, x := Further(db, k, Paid, approved), IntentOf(db, k, HeldInEscrow);
    PaidClass(db, user, tutor, start, minutes, now, approved);
    ReleaseGoesThrough(db, paid, x, at);
    GoesOn(db, Paying(db, DoCreate(user, tutor, start, minutes, None, now), k, approved), With(db, paid, [x]),
           DoRelease(|db.bookings|, at), With(db, paid.(status := Completed), [x.(status := ReleasedForPayout)]));
  }

  /** Until then the student may report it, and that freezes the money ... */
  lemma ReportedClass(db: Db, user: User, tutor: nat, start: int, minutes: nat, now: int, approved: int, at: int)
    requires TimedInv(db) && MayCreate(db, user, tutor, start, minutes, None, now) && at <= approved + 86_400_000
    ensures var k := ClassAsked(db, user, tutor, start, minutes);
            Leads(db, Paying(db, DoCreate(user, tutor, start, minutes, None, now), k, approved)
                      + [DoReport(user, |db.bookings|, at)],
                  With(db, Further(db, k, BookingStatus.Reported, approved), [IntentOf(db, k, Disputed)]))
  {
    var k := ClassAsked(db, user, tutor, start, minutes);
    var paid, x := Further(db, k, Paid, approved), IntentOf(db, k, HeldInEscrow);
    PaidClass(db, user, tutor, start, minutes, now, approved);
    ReportGoesThrough(db, paid, x, at);
    GoesOn(db, Paying(db, DoCreate(user, tutor, start, minutes, None, now), k, approved), With(db, paid, [x]),
           DoReport(user, |db.bookings|, at),
           With(db, paid.(status := BookingStatus.Reported), [x.(status := Disputed)]));
  }

  /** ... since the daily job passes a reported class by, whenever it runs. */
  lemma ReportedIsPassed(db: Db, b: nat, at: int)
    requires Refs(db) && b < |db.bookings| && db.bookings[b].status == BookingStatus.Reported
    ensures Step(db, DoRelease(b, at)) == Result.Ok(db)
  {
  }

  // ---- a class that is moved --------------------------------------------------------------------------------

  predicate OtherSide(db: Db, b: nat, user: User, other: User) {
    HasBooking(db, b) && user != other && {user, other} == {db.bookings[b].student, db.tutors[db.bookings[b].tutor].user}
  }

  lemma StillFree(db: Db, db': Db, b: nat, u: User, start: int, minutes: int)
    requires Refs(db) && Refs(db') && db'.zone == db.zone && db'.tutors == db.tutors && |db'.bookings| == |db.bookings|
    requires forall a: nat :: a < |db.bookings| && a != b ==>
               db'.bookings[a] == db.bookings[a]
               && (db.bookings[a].request.Some? ==>
                     db'.requests[db.bookings[a].request.value] == db.requests[db.bookings[a].request.value])
    requires FreeFor(db, u, start, minutes, Some(b))
    ensures FreeFor(db', u, start, minutes, Some(b))
  {
    forall t | During(start, minutes, t) ensures !BusyAt(db', u, t, Some(b)) {
      assert !BusyAt(db, u, t, Some(b));
      if a: nat :| a < |db'.bookings| && Some(a) != Some(b) && Attends(db', a, u) && ClassAt(db', a, t) {
        assert BookingRefs(db, db.bookings[a]) && Attends(db, a, u) && ClassAt(db, a, t);
      }
    }
  }

  /** What a request and a proposal leave as it was: everybody else's bookings and requests, and the free time. */
  predicate OnlyTouches(db: Db, db': Db, b: nat) {
    && db'.zone == db.zone && db'.tutors == db.tutors && |db'.bookings| == |db.bookings|
    && db'.intents == db.intents && db'.ledger == db.ledger && |db.requests| <= |db'.requests|
    && (forall a :: 0 <= a < |db.bookings| && a != b ==> db'.bookings[a] == db.bookings[a])
    && (forall r :: 0 <= r < |db.requests| && db.requests[r].booking != b ==> db'.requests[r] == db.requests[r])
  }

  /** Class `b` under negotiation, by the user who asked, with that proposal. */
  predicate Negotiated(db: Db, b: nat, k: Booking, user: User, proposed: Option<Proposal>) {
    && b < |db.bookings| && db.bookings[b].request.Some? && db.bookings[b].request.value < |db.requests|
    && db.bookings[b] == k.(status := PostponePending, request := db.bookings[b].request)
    && var q := db.requests[db.bookings[b].request.value];
       q.status == Negotiating && q.initiator == user && q.proposed == proposed && q.booking == b
  }

  lemma AskedFor(db: Db, user: User, b: nat, reasonLength: nat, now: int)
    requires TimedInv(db) && MayInitiate(db, user, b, reasonLength, now)
    ensures var ask := DoInitiate(user, b, reasonLength, now);
            && Step(db, ask).Ok? && TimedInv(Step(db, ask).db) && Leads(db, [ask], Step(db, ask).db)
            && OnlyTouches(db, Step(db, ask).db, b) && Negotiated(Step(db, ask).db, b, db.bookings[b], user, None)
  {
    var ask := DoInitiate(user, b, reasonLength, now);
    AcceptedIffPermitted(db, ask);
    StepKeeps(db, ask);
    StepKeepsLengths(db, ask);
    OneStepLeads(db, ask);
  }

  lemma ProposedFor(db: Db, k: Booking, user: User, b: nat, start: int, minutes: nat, now: int)
    requires TimedInv(db) && Negotiated(db, b, k, user, None) && MayPropose(db, user, b, start, minutes, now)
    ensures var propose := DoPropose(user, b, start, minutes, now);
            && Step(db, propose).Ok? && TimedInv(Step(db, propose).db) && OnlyTouches(db, Step(db, propose).db, b)
            && Negotiated(Step(db, propose).db, b, k, user, Some(Proposal(start, minutes)))
  {
    var propose := DoPropose(user, b, start, minutes, now);
    AcceptedIffPermitted(db, propose);
    StepKeeps(db, propose);
    StepKeepsLengths(db, propose);
  }

  lemma OnlyTouchesKeepsFree(db: Db, db': Db, b: nat, start: int, minutes: int)
    requires TimedInv(db) && TimedInv(db') && OnlyTouches(db, db', b) && b < |db.bookings|
    requires db'.bookings[b].student == db.bookings[b].student && db'.bookings[b].tutor == db.bookings[b].tutor
    requires BothFree(db, b, start, minutes)
    ensures BothFree(db', b, start, minutes)
  {
    forall a: nat | a < |db.bookings| && a != b && db.bookings[a].request.Some?
      ensures db'.requests[db.bookings[a].request.value] == db.requests[db.bookings[a].request.value]
    {
      assert BookingShape(db, a);
    }
    StillFree(db, db', b, db.bookings[b].student, start, minutes);
    StillFree(db, db', b, db.tutors[db.bookings[b].tutor].user, start, minutes);
  }

  /** The class `k`, number `b` of `db`, now is number `n` at the new time, with its people, price and money; the
      original is kept as postponed. */
  predicate MovedTo(db: Db, db': Db, b: nat, start: int, minutes: nat)
    requires b < |db.bookings|
  {
    var k, n := db.bookings[b], |db.bookings|;
    && |db'.bookings| == n + 1
    && db'.bookings[n]
       == Booking(k.student, k.tutor, Paid, start, minutes, k.amount, None, OneOnOne, None, k.intent, None)
    && db'.bookings[b] == k.(status := Postponed, request := db'.bookings[b].request, intent := None, movedTo := Some(n))
    && (forall a :: 0 <= a < n && a != b ==> db'.bookings[a] == db.bookings[a])
    && k.intent.Some? && k.intent.value < |db.intents|
    && db'.intents == db.intents[k.intent.value := db.intents[k.intent.value].(booking := n)]
    && db'.ledger == db.ledger && db'.tutors == db.tutors
  }

  lemma ConfirmedFor(db: Db, k: Booking, user: User, other: User, b: nat, start: int, minutes: nat)
    requires TimedInv(db) && Negotiated(db, b, k, user, Some(Proposal(start, minutes)))
    requires Participant(db, b, other) && other != user && BothFree(db, b, start, minutes)
    ensures Step(db, DoConfirm(other, b)).Ok?
    ensures Step(db, DoConfirm(other, b)).db == Agree(db, b) && k.intent.Some? && k.intent.value < |db.intents|
  {
    AcceptedIffPermitted(db, DoConfirm(other, b));
    ConfirmKeeps(db, other, b);
  }

  lemma MovesStepByStep(db: Db, asked: Db, proposed: Db, after: Db, b: nat, k: Booking, user: User,
                        start: int, minutes: nat)
    requires b < |db.bookings| && k == db.bookings[b] && k.intent.Some? && k.intent.value < |db.intents|
    requires OnlyTouches(db, asked, b) && OnlyTouches(asked, proposed, b)
    requires Negotiated(proposed, b, k, user, Some(Proposal(start, minutes)))
    requires Refs(proposed) && after == Agree(proposed, b)
    ensures MovedTo(db, after, b, start, minutes)
  {
  }

  lemma AskedAndProposed(db: Db, user: User, b: nat, reasonLength: nat, now: int, start: int, minutes: nat, later: int)
    returns (asked: Db, proposed: Db)
    requires TimedInv(db) && MayInitiate(db, user, b, reasonLength, now)
    requires minutes in {30, 60, 90, 120} && BangkokDay(start) > BangkokDay(later) && BothFree(db, b, start, minutes)
    ensures Leads(db, [DoInitiate(user, b, reasonLength, now)] + [DoPropose(user, b, start, minutes, later)], proposed)
    ensures OnlyTouches(db, asked, b) && OnlyTouches(asked, proposed, b) && TimedInv(proposed)
    ensures Negotiated(proposed, b, db.bookings[b], user, Some(Proposal(start, minutes)))
    ensures BothFree(proposed, b, start, minutes)
  {
    var ask, propose := DoInitiate(user, b, reasonLength, now), DoPropose(user, b, start, minutes, later);
    AskedFor(db, user, b, reasonLength, now);
    asked := Step(db, ask).db;
    OnlyTouchesKeepsFree(db, asked, b, start, minutes);
    ProposedFor(asked, db.bookings[b], user, b, start, minutes, later);
    proposed := Step(asked, propose).db;
    GoesOn(db, [ask], asked, propose, proposed);
    OnlyTouchesKeepsFree(asked, proposed, b, start, minutes);
  }

  /** Whoever may ask for another time, and proposes one that is free for both, gets it with the other side's consent:
      request, proposal and confirmation go through, and the class moves with its money. */
  lemma MovedClass(db: Db, user: User, other: User, b: nat, reasonLength: nat, now: int,
                   start: int, minutes: nat, later: int)
    returns (after: Db)
    requires TimedInv(db) && MayInitiate(db, user, b, reasonLength, now) && OtherSide(db, b, user, other)
    requires minutes in {30, 60, 90, 120} && BangkokDay(start) > BangkokDay(later) && BothFree(db, b, start, minutes)
    ensures Leads(db, [DoInitiate(user, b, reasonLength, now)] + [DoPropose(user, b, start, minutes, later)]
                      + [DoConfirm(other, b)], after)
    ensures MovedTo(db, after, b, start, minutes)
  {
    var ask, propose := DoInitiate(user, b, reasonLength, now), DoPropose(user, b, start, minutes, later);
    var k := db.bookings[b];
    var asked, proposed := AskedAndProposed(db, user, b, reasonLength, now, start, minutes, later);
    ConfirmedFor(proposed, k, user, other, b, start, minutes);
    after := Step(proposed, DoConfirm(other, b)).db;
    GoesOn(db, [ask] + [propose], proposed, DoConfirm(other, b), after);
    MovesStepByStep(db, asked, proposed, after, b, k, user, start, minutes);
  }
}
