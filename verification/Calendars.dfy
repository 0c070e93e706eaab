/** Nobody is double-booked, whatever slips and verdicts do to the money. */
module Calendars {
  import opened Basics
  import opened RefundPolicy
  import opened Runs
  import opened Bookings
  import opened BookingInvariants
  import opened SlipSteps
  import opened BookingRuns
  import opened AllRuns

  /** The same database, but for the state and amount of intents, the ledger and defect counts. */
  predicate SameButMoney(db: Db, x: Db) {
    && x.zone == db.zone && x.cuts == db.cuts && x.bookings == db.bookings && x.requests == db.requests
    && |x.tutors| == |db.tutors| && |x.intents| == |db.intents|
    && (forall t :: 0 <= t < |db.tutors| ==> x.tutors[t] == db.tutors[t].(defectCount := x.tutors[t].defectCount))
    && (forall i :: 0 <= i < |db.intents| ==>
          x.intents[i].booking == db.intents[i].booking && x.intents[i].payer == db.intents[i].payer)
  }

  /** A good database with the same calendar. */
  ghost predicate Twin(db: Db, x: Db) {
    Inv(x) && SameButMoney(db, x)
  }

  ghost predicate Sound(db: Db) {
    exists x :: Twin(db, x)
  }

  lemma SoundCalendar(db: Db, x: Db)
    requires Twin(db, x)
    ensures Refs(db) && NoDoubleBooking(db)
  {
    forall b | 0 <= b < |db.bookings| ensures BookingRefs(db, db.bookings[b]) { assert BookingRefs(x, x.bookings[b]); }
    forall b: nat, s | Reserves(db, b, s) ensures Reserves(x, b, s) {}
    forall b, u | 0 <= b < |db.bookings| ensures Involves(x, b, u) <==> Involves(db, b, u) {}
  }

  /** The clearing finds a booking that may be paid. */
  ghost predicate ClearsSafely(db: Db, a: Act)
    requires Refs(db)
  {
    match a
    case Service(DoApproveSlip(i, _)) => i < |db.intents| ==> ReviewIsSafe(db, i)
    case Verdict(i, verified, _) => i < |db.intents| && verified ==> ReviewIsSafe(db, i)
    case _ => true
  }

  // ---- the twin's step ---------------------------------------------------------------------------------

  lemma SameAnswers(db: Db, x: Db, u: User, span: Span, exclude: Option<nat>)
    requires Refs(db) && Refs(x) && SameButMoney(db, x)
    ensures Guard(db, u, span, exclude) == Guard(x, u, span, exclude)
  {
    forall b | 0 <= b < |db.bookings|
      ensures (Involves(x, b, u) <==> Involves(db, b, u)) && ProposedSlot(x, b) == ProposedSlot(db, b)
    {}
    assert BookingHit(db, u, span, exclude) <==> BookingHit(x, u, span, exclude);
    assert ProposalHit(db, u, span, exclude) <==> ProposalHit(x, u, span, exclude);
    assert RuleHit(db, u, span) <==> RuleHit(x, u, span);
  }

  /** Only the state of one row changes: the twin's row changes alike, its money stays. */
  lemma RowMirrored(db: Db, db': Db, x: Db, b: nat)
    requires Twin(db, x) && SameButMoney(db', x.(bookings := db'.bookings))
    requires Restated(x, x.(bookings := db'.bookings), b)
    ensures Sound(db')
  {
    RestatedKeeps(x, x.(bookings := db'.bookings), b);
    assert Twin(db', x.(bookings := db'.bookings));
  }

  /** A twin that has a slip to review, which may safely be approved. */
  ghost predicate Reviewable(x: Db, y: Db, i: nat) {
    Twin(x, y) && i < |y.intents| && y.intents[i].status == SlipUploaded && ReviewIsSafe(y, i)
  }

  /** The twin of a booking that is yet to be paid may have a slip registered. */
  lemma Registered(x: Db, i: nat)
    requires Inv(x) && i < |x.intents| && ReviewIsSafe(x, i)
    requires var k := x.bookings[x.intents[i].booking]; k.request.None? && k.status != Paid && k.phase != GroupFailed
    ensures exists y :: Reviewable(x, y, i)
  {
    var y := UploadSlip(x, x.intents[i].payer, i).db;
    assert Conserved(x, i) && IntentShape(x, i);
    UploadKeepsInvIff(x, x.intents[i].payer, i);
    forall b: nat, s | Reserves(y, b, s) ensures Reserves(x, b, s) {}
    forall b, u | 0 <= b < |x.bookings| ensures Involves(x, b, u) <==> Involves(y, b, u) {}
    assert Reviewable(x, y, i);
  }

  lemma SafeForTwin(db: Db, i: nat, x: Db)
    requires Refs(db) && Refs(x) && SameButMoney(db, x) && i < |db.intents| && ReviewIsSafe(db, i)
    ensures ReviewIsSafe(x, i)
  {
    forall b: nat, s | Reserves(x, b, s) ensures Reserves(db, b, s) {}
    forall b, u | 0 <= b < |db.bookings| ensures Involves(x, b, u) <==> Involves(db, b, u) {}
  }

  lemma ClearedMirrored(db: Db, i: nat, now: int, x: Db)
    requires Twin(db, x) && Refs(db) && i < |db.intents| && ReviewIsSafe(db, i)
    ensures Sound(Cleared(db, i, now))
  {
    var b := db.intents[i].booking;
    SafeForTwin(db, i, x);
    if db.bookings[b].phase != OneOnOne {
      assert Twin(Cleared(db, i, now), x);
    } else if db.bookings[b].status == Paid {
      assert BookingShape(x, b);
      RowMirrored(db, Cleared(db, i, now), x, b);
    } else {
      Registered(x, i);
      var y :| Reviewable(x, y, i);
      ReviewKeepsInvIff(y, i, now);
      assert Twin(Cleared(db, i, now), Cleared(y, i, now));
    }
  }

  lemma GroupMirrored(db: Db, i: nat, now: int, x: Db)
    requires Twin(db, x) && Refs(db) && ConfirmGroup(db, i, now).Ok?
    ensures Sound(ConfirmGroup(db, i, now).db)
  {
    assert BookingShape(x, db.intents[i].booking) && IntentShape(x, i);
    Registered(x, i);
    var y :| Reviewable(x, y, i);
    ReviewKeepsInvIff(y, i, now);
    var z := Cleared(y, i, now);
    StepKeeps(z, DoConfirmGroup(i, now));
    assert Twin(ConfirmGroup(db, i, now).db, ConfirmGroup(z, i, now).db);
  }

  /** Steps that only read what the twins share. */
  predicate OnCalendar(e: Event) {
    !OnBooking(e) && !e.DoUploadSlip? && !e.DoApproveSlip? && !e.DoConfirmGroup?
  }

  lemma CreateMirrored(db: Db, user: User, tutor: nat, start: int, minutes: nat, seats: Option<nat>, now: int, x: Db)
    requires Refs(db) && Refs(x) && SameButMoney(db, x) && Create(db, user, tutor, start, minutes, seats, now).Ok?
    ensures Create(x, user, tutor, start, minutes, seats, now).Ok?
    ensures SameButMoney(Create(db, user, tutor, start, minutes, seats, now).db,
                         Create(x, user, tutor, start, minutes, seats, now).db)
  {
    SameAnswers(db, x, user, Lesson(start, minutes), None);
    SameAnswers(db, x, db.tutors[tutor].user, Lesson(start, minutes), None);
  }

  lemma ProposeMirrored(db: Db, user: User, b: nat, start: int, minutes: nat, now: int, x: Db)
    requires Refs(db) && Refs(x) && SameButMoney(db, x) && Propose(db, user, b, start, minutes, now).Ok?
    ensures Propose(x, user, b, start, minutes, now).Ok?
    ensures SameButMoney(Propose(db, user, b, start, minutes, now).db, Propose(x, user, b, start, minutes, now).db)
  {
    SameAnswers(db, x, db.bookings[b].student, Lesson(start, minutes), Some(b));
    SameAnswers(db, x, db.tutors[db.bookings[b].tutor].user, Lesson(start, minutes), Some(b));
  }

  lemma ConfirmMirrored(db: Db, user: User, b: nat, x: Db)
    requires Refs(db) && Refs(x) && SameButMoney(db, x) && Confirm(db, user, b).Ok?
    ensures Confirm(x, user, b).Ok? && SameButMoney(Confirm(db, user, b).db, Confirm(x, user, b).db)
  {
    var p := db.requests[db.bookings[b].request.value].proposed.value;
    SameAnswers(db, x, db.bookings[b].student, Lesson(p.start, p.minutes), Some(b));
    SameAnswers(db, x, db.tutors[db.bookings[b].tutor].user, Lesson(p.start, p.minutes), Some(b));
  }

  lemma SettleMirrored(db: Db, b: nat, outcome: Outcome, x: Db)
    requires Refs(db) && Refs(x) && SameButMoney(db, x)
    requires b < |db.bookings| && db.bookings[b].request.Some? && db.bookings[b].intent.Some?
    ensures SameButMoney(Settle(db, b, outcome), Settle(x, b, outcome))
  {
  }

  lemma FailureMirrored(db: Db, b: nat, reason: RefundReason, x: Db)
    requires Refs(db) && Refs(x) && SameButMoney(db, x) && FailGroup(db, b, reason).Ok?
    ensures FailGroup(x, b, reason).Ok? && SameButMoney(FailGroup(db, b, reason).db, FailGroup(x, b, reason).db)
  {
  }

  lemma CalendarMirrored(db: Db, e: Event, x: Db)
    requires Refs(db) && Refs(x) && SameButMoney(db, x) && OnCalendar(e) && Step(db, e).Ok?
    ensures Step(x, e).Ok? && SameButMoney(Step(db, e).db, Step(x, e).db)
  {
    match e
    case DoCreate(user, tutor, start, minutes, seats, now) =>
      CreateMirrored(db, user, tutor, start, minutes, seats, now, x);
    case DoPropose(user, b, start, minutes, now) => ProposeMirrored(db, user, b, start, minutes, now, x);
    case DoConfirm(user, b) => ConfirmMirrored(db, user, b, x);
    case DoFailGroup(b, reason) => FailureMirrored(db, b, reason, x);
    case DoCancelPostpone(_, b) =>
      SettleMirrored(db, b, CancelOutcome(db.requests[db.bookings[b].request.value].role), x);
    case DoTimeout(r, engaged) =>
      if r < |db.requests| && db.requests[r].status == Negotiating
         && db.bookings[db.requests[r].booking].request == Some(r) {
        SettleMirrored(db, db.requests[r].booking, TimeoutOutcome(db.requests[r].role, engaged), x);
      }
    case _ =>
  }

  lemma ReportMirrored(db: Db, user: User, b: nat, now: int, x: Db)
    requires Twin(db, x) && Refs(db) && Report(db, user, b, now).Ok?
    ensures Sound(Report(db, user, b, now).db)
  {
    assert BookingShape(x, b);
    RowMirrored(db, Report(db, user, b, now).db, x, b);
  }

  lemma ReleaseMirrored(db: Db, b: nat, now: int, x: Db)
    requires Twin(db, x) && Refs(db) && ReleaseForPayout(db, b, now).Ok? && ReleaseForPayout(db, b, now).db != db
    ensures Sound(ReleaseForPayout(db, b, now).db)
  {
    assert BookingShape(x, b);
    RowMirrored(db, ReleaseForPayout(db, b, now).db, x, b);
  }

  lemma AnswerMirrored(db: Db, e: Event, x: Db)
    requires Twin(db, x) && Refs(db) && Step(db, e).Ok? && (e.DoAccept? || e.DoReject? || e.DoCancel?)
    ensures Sound(Step(db, e).db)
  {
    assert BookingShape(x, e.b);
    RowMirrored(db, Step(db, e).db, x, e.b);
  }

  lemma ServiceMirrored(db: Db, e: Event, x: Db)
    requires Twin(db, x) && Refs(db) && Step(db, e).Ok? && ClearsSafely(db, Service(e))
    ensures Sound(Step(db, e).db)
  {
    if OnCalendar(e) {
      CalendarMirrored(db, e, x);
      StepKeeps(x, e);
      assert Twin(Step(db, e).db, Step(x, e).db);
    } else {
      match e
      case DoReport(user, b, now) => ReportMirrored(db, user, b, now, x);
      case DoRelease(b, now) => if Step(db, e).db != db { ReleaseMirrored(db, b, now, x); }
      case DoConfirmGroup(i, now) => GroupMirrored(db, i, now, x);
      case DoApproveSlip(i, now) => ClearedMirrored(db, i, now, x);
      case DoUploadSlip(_, _) => assert Twin(Step(db, e).db, x);
      case _ => AnswerMirrored(db, e, x);
    }
  }

  lemma ActMirrored(db: Db, a: Act, x: Db)
    requires Twin(db, x) && Refs(db) && ActStep(db, a).Ok? && ClearsSafely(db, a)
    ensures Sound(ActStep(db, a).db)
  {
    if a.Service? {
      ServiceMirrored(db, a.e, x);
    } else if a.verified {
      ClearedMirrored(db, a.i, a.now, x);
    } else {
      assert Twin(ActStep(db, a).db, x);
    }
  }

  // ---- runs -----------------------------------------------------------------------------------------------

  ghost predicate SafeMoves(db: Db, a: Act, db': Db) {
    AnyMoves(db, a, db') && ClearsSafely(db, a)
  }

  /** In every state of every run whose clearings are safe, nobody is double-booked: registrations and verdicts may
      do to the money what they like. */
  lemma NobodyDoubleBooked(dbs: seq<Db>, acts: seq<Act>, k: nat)
    requires IsRunOf(SafeMoves, dbs, acts) && k <= |acts| && Inv(dbs[0])
    ensures Refs(dbs[k]) && NoDoubleBooking(dbs[k])
  {
    assert Twin(dbs[0], dbs[0]);
    forall db, a, db' | Sound(db) && SafeMoves(db, a, db') ensures Sound(db') {
      var x :| Twin(db, x);
      if ActStep(db, a).Ok? { ActMirrored(db, a, x); }
    }
    HoldsAlong(SafeMoves, Sound, dbs, acts, 0, k);
    var x :| Twin(dbs[k], x);
    SoundCalendar(dbs[k], x);
  }
}
