/** What a proposed slot is worth: when the other side's confirmation can still be refused, and how
    originals, clones and the money of a class hang together. */
module Proposals {
  import opened Basics
  import opened RefundPolicy
  import opened Runs
  import opened WeeklyRules
  import opened Bookings
  import opened BookingInvariants
  import opened SlipSteps
  import opened BookingRuns

  // ---- the clashes that remain possible in any run -------------------------------------------------

  /** A postponed original of another booking sits on the span, on the user's calendar. */
  ghost predicate PostponedHit(db: Db, u: User, span: Span, exclude: nat)
    requires Refs(db)
  {
    exists a :: 0 <= a < |db.bookings| && a != exclude && Involves(db, a, u)
                && db.bookings[a].status == Postponed && Overlap(OwnSlot(db.bookings[a]), span)
  }

  /** In any run, the guard at confirmation can find no other proposal, and no booking but a
      postponed original. */
  lemma OnlyPostponedOriginalsClash(db: Db, b: nat, u: User)
    requires Inv(db) && b < |db.bookings| && ProposedSlot(db, b).Some? && Involves(db, b, u)
    ensures BookingHit(db, u, ProposedSlot(db, b).value, Some(b))
            <==> PostponedHit(db, u, ProposedSlot(db, b).value, b)
    ensures !ProposalHit(db, u, ProposedSlot(db, b).value, Some(b))
  {
    var span := ProposedSlot(db, b).value;
    assert Reserves(db, b, span);
    forall a | 0 <= a < |db.bookings| && a != b && Involves(db, a, u)
      ensures Live(db.bookings[a].status) ==> !Overlap(OwnSlot(db.bookings[a]), span)
      ensures ProposedSlot(db, a).Some? ==> !Overlap(ProposedSlot(db, a).value, span)
    {
      if Live(db.bookings[a].status) { assert Reserves(db, a, OwnSlot(db.bookings[a])); }
      if ProposedSlot(db, a).Some? { assert Reserves(db, a, ProposedSlot(db, a).value); }
    }
  }

  // ---- runs without a report ----------------------------------------------------------------------

  /** Every open negotiation is about a booking that is still pending. */
  ghost predicate PendingOnly(db: Db)
    requires Refs(db)
  {
    forall b :: 0 <= b < |db.bookings| && StatusOfRequest(db, db.bookings[b]) == Some(Negotiating)
      ==> db.bookings[b].status == PostponePending
  }

  /** No booking that the guard counts, postponed originals included, sits on another's proposal. */
  ghost predicate ProposalsClear(db: Db)
    requires Refs(db)
  {
    forall a: nat, b: nat, u ::
      a < |db.bookings| && b < |db.bookings| && a != b && Active(db.bookings[a].status)
      && ProposedSlot(db, b).Some? && Involves(db, a, u) && Involves(db, b, u)
      ==> !Overlap(OwnSlot(db.bookings[a]), ProposedSlot(db, b).value)
  }

  ghost predicate Calm(db: Db)
    requires Refs(db)
  {
    PendingOnly(db) && ProposalsClear(db)
  }

  /** Same people, nothing new proposed, nothing newly counted by the guard. */
  ghost predicate ClaimsNoMore(db: Db, db': Db)
    requires Refs(db) && Refs(db')
  {
    && |db'.bookings| == |db.bookings|
    && (forall b, u :: 0 <= b < |db.bookings| ==> (Involves(db', b, u) <==> Involves(db, b, u)))
    && (forall b :: 0 <= b < |db.bookings| && ProposedSlot(db', b).Some? ==> ProposedSlot(db', b) == ProposedSlot(db, b))
    && (forall b :: 0 <= b < |db.bookings| && Active(db'.bookings[b].status) ==>
          Active(db.bookings[b].status) && OwnSlot(db'.bookings[b]) == OwnSlot(db.bookings[b]))
  }

  lemma ClaimingLessKeepsClear(db: Db, db': Db)
    requires Refs(db) && Refs(db') && ProposalsClear(db) && ClaimsNoMore(db, db')
    ensures ProposalsClear(db')
  {
  }

  lemma RestatedKeepsCalm(db: Db, db': Db, b: nat)
    requires Inv(db) && Inv(db') && Calm(db) && Restated(db, db', b)
    requires StatusOfRequest(db, db.bookings[b]) == Some(Negotiating) ==> db'.bookings[b].status == PostponePending
    ensures Calm(db')
  {
    forall a | 0 <= a < |db.bookings|
      ensures StatusOfRequest(db', db'.bookings[a]) == StatusOfRequest(db, db.bookings[a])
      ensures ProposedSlot(db', a) == ProposedSlot(db, a)
    {}
    ClaimingLessKeepsClear(db, db');
  }

  /** A safe review clashes with no proposal either, even when it brings a booking back. */
  lemma ReviewKeepsCalm(db: Db, i: nat, now: int)
    requires Inv(db) && Calm(db) && ApproveSlip(db, i, now).Ok? && ReviewIsSafe(db, i)
    requires Inv(ApproveSlip(db, i, now).db)
    ensures Calm(ApproveSlip(db, i, now).db)
  {
    var db', b := ApproveSlip(db, i, now).db, db.intents[i].booking;
    forall a | 0 <= a < |db.bookings|
      ensures ProposedSlot(db', a) == ProposedSlot(db, a) && OwnSlot(db'.bookings[a]) == OwnSlot(db.bookings[a])
      ensures StatusOfRequest(db', db'.bookings[a]) == StatusOfRequest(db, db.bookings[a])
    {}
    if db.bookings[b].phase != OneOnOne {
      ClaimingLessKeepsClear(db, db');
    } else {
      forall a: nat, c: nat, u | a < |db.bookings| && c < |db.bookings| && a != c && Active(db'.bookings[a].status)
        && ProposedSlot(db', c).Some? && Involves(db', a, u) && Involves(db', c, u)
        ensures !Overlap(OwnSlot(db'.bookings[a]), ProposedSlot(db', c).value)
      {
        assert Involves(db, a, u) && Involves(db, c, u) && Reserves(db, c, ProposedSlot(db, c).value);
      }
    }
  }

  lemma AgreeKeepsCalm(db: Db, b: nat)
    requires Inv(db) && Calm(db) && OpenNegotiation(db, b)
    requires db.requests[db.bookings[b].request.value].proposed.Some?
    requires Inv(Agree(db, b))
    ensures Calm(Agree(db, b))
  {
    var db', n := Agree(db, b), |db.bookings|;
    assert BookingShape(db, b);
    assert Reserves(db, b, ProposedSlot(db, b).value);
    forall a: nat | a < |db'.bookings| && ProposedSlot(db', a).Some?
      ensures a < n && a != b && ProposedSlot(db', a) == ProposedSlot(db, a)
      ensures Reserves(db, a, ProposedSlot(db, a).value)
    {
      if a < n { assert BookingShape(db, a); }
    }
    forall a: nat, c: nat, u | a < |db'.bookings| && c < |db'.bookings| && a != c
      && Active(db'.bookings[a].status) && ProposedSlot(db', c).Some? && Involves(db', a, u) && Involves(db', c, u)
      ensures !Overlap(OwnSlot(db'.bookings[a]), ProposedSlot(db', c).value)
    {
      assert Involves(db, c, u) && Involves(db, if a == n then b else a, u);
    }
  }

  lemma SettleKeepsCalm(db: Db, b: nat, outcome: Outcome)
    requires Inv(db) && Calm(db) && OpenNegotiation(db, b) && Inv(Settle(db, b, outcome))
    ensures Calm(Settle(db, b, outcome))
  {
    ClaimingLessKeepsClear(db, Settle(db, b, outcome));
  }

  lemma InsertedIsClear(db: Db, db': Db, span: Span, a: nat, b: nat, u: User)
    requires Refs(db) && ProposalsClear(db) && Refs(db') && |db'.bookings| == |db.bookings| + 1
    requires db' == db.(bookings := db.bookings + [db'.bookings[|db.bookings|]])
    requires OwnSlot(db'.bookings[|db.bookings|]) == span
    requires a == |db.bookings| ==> !ProposalHit(db, u, span, None)
    requires a <= |db.bookings| && b < |db.bookings| && a != b && Active(db'.bookings[a].status)
    requires ProposedSlot(db', b).Some? && Involves(db', a, u) && Involves(db', b, u)
    ensures !Overlap(OwnSlot(db'.bookings[a]), ProposedSlot(db', b).value)
  {
    assert ProposedSlot(db, b) == ProposedSlot(db', b) && Involves(db, b, u);
    assert a < |db.bookings| ==> Involves(db, a, u) && db.bookings[a] == db'.bookings[a];
  }

  /** One more row, whose class time is clear of every proposal on both calendars. */
  lemma InsertedKeepsCalm(db: Db, db': Db, student: User, tutorUser: User, span: Span)
    requires Inv(db) && Calm(db) && Inv(db') && |db'.bookings| == |db.bookings| + 1
    requires db' == db.(bookings := db.bookings + [db'.bookings[|db.bookings|]])
    requires db'.bookings[|db.bookings|].request.None? && OwnSlot(db'.bookings[|db.bookings|]) == span
    requires forall u :: Involves(db', |db.bookings|, u) ==> u == student || u == tutorUser
    requires !ProposalHit(db, student, span, None) && !ProposalHit(db, tutorUser, span, None)
    ensures Calm(db')
  {
    forall a: nat, b: nat, u | a < |db'.bookings| && b < |db'.bookings| && a != b && Active(db'.bookings[a].status)
      && ProposedSlot(db', b).Some? && Involves(db', a, u) && Involves(db', b, u)
      ensures !Overlap(OwnSlot(db'.bookings[a]), ProposedSlot(db', b).value)
    {
      InsertedIsClear(db, db', span, a, b, u);
    }
  }

  lemma CreateKeepsCalm(db: Db, user: User, tutor: nat, start: int, minutes: nat, seats: Option<nat>, now: int)
    requires Inv(db) && Calm(db) && Create(db, user, tutor, start, minutes, seats, now).Ok?
    requires Inv(Create(db, user, tutor, start, minutes, seats, now).db)
    ensures Calm(Create(db, user, tutor, start, minutes, seats, now).db)
  {
    var db', span := Create(db, user, tutor, start, minutes, seats, now).db, Lesson(start, minutes);
    assert !ProposalHit(db, user, span, None) && !ProposalHit(db, db.tutors[tutor].user, span, None);
    InsertedKeepsCalm(db, db', user, db.tutors[tutor].user, span);
  }

  lemma ProposedRow(db: Db, b: nat, p: Proposal, a: nat)
    requires Inv(db) && b < |db.bookings| && a < |db.bookings| && db.bookings[b].request.Some?
    requires db.requests[db.bookings[b].request.value].status == Negotiating
    ensures var r := db.bookings[b].request.value;
            var db' := db.(requests := db.requests[r := db.requests[r].(proposed := Some(p))]);
            && BookingRefs(db', db.bookings[a])
            && StatusOfRequest(db', db'.bookings[a]) == StatusOfRequest(db, db.bookings[a])
            && ProposedSlot(db', a) == (if a == b then Some(Lesson(p.start, p.minutes)) else ProposedSlot(db, a))
            && forall u :: Involves(db', a, u) <==> Involves(db, a, u)
  {
    assert BookingShape(db, b) && BookingShape(db, a);
  }

  lemma ProposeKeepsCalm(db: Db, user: User, b: nat, start: int, minutes: nat, now: int)
    requires Inv(db) && Calm(db) && Propose(db, user, b, start, minutes, now).Ok?
    requires Inv(Propose(db, user, b, start, minutes, now).db)
    ensures Calm(Propose(db, user, b, start, minutes, now).db)
  {
    var db', span, k := Propose(db, user, b, start, minutes, now).db, Lesson(start, minutes), db.bookings[b];
    assert !BookingHit(db, k.student, span, Some(b)) && !BookingHit(db, db.tutors[k.tutor].user, span, Some(b));
    forall a: nat | a < |db.bookings|
      ensures StatusOfRequest(db', db'.bookings[a]) == StatusOfRequest(db, db.bookings[a])
      ensures ProposedSlot(db', a) == if a == b then Some(span) else ProposedSlot(db, a)
      ensures forall u :: Involves(db', a, u) <==> Involves(db, a, u)
    {
      ProposedRow(db, b, Proposal(start, minutes), a);
    }
  }

  /** Steps that touch no calendar. */
  lemma PaymentKeepsCalm(db: Db, e: Event)
    requires Inv(db) && Calm(db) && Step(db, e).Ok? && Inv(Step(db, e).db)
    requires e.DoUploadSlip? || e.DoSetRules? || e.DoOpenIntent?
    ensures Calm(Step(db, e).db)
  {
    assert e.DoOpenIntent? ==> BookingShape(db, e.b);
    ClaimingLessKeepsClear(db, Step(db, e).db);
  }

  lemma FailureKeepsCalm(db: Db, b: nat, reason: RefundReason)
    requires Inv(db) && Calm(db) && FailGroup(db, b, reason).Ok? && Inv(FailGroup(db, b, reason).db)
    ensures Calm(FailGroup(db, b, reason).db)
  {
    assert BookingShape(db, b);
    ClaimingLessKeepsClear(db, FailGroup(db, b, reason).db);
  }

  lemma InitiateKeepsCalm(db: Db, user: User, b: nat, reasonLength: nat, now: int)
    requires Inv(db) && Calm(db) && Initiate(db, user, b, reasonLength, now).Ok?
    requires Inv(Initiate(db, user, b, reasonLength, now).db)
    ensures Calm(Initiate(db, user, b, reasonLength, now).db)
  {
    var db' := Initiate(db, user, b, reasonLength, now).db;
    forall a | 0 <= a < |db.bookings|
      ensures if a == b then ProposedSlot(db', a).None? else ProposedSlot(db', a) == ProposedSlot(db, a)
    {
      assert BookingShape(db, a);
    }
    ClaimingLessKeepsClear(db, db');
  }

  lemma OnBookingKeepsCalm(db: Db, e: Event)
    requires Inv(db) && Calm(db) && OnBooking(e) && Step(db, e).Ok? && !e.DoReport? && Inv(Step(db, e).db)
    ensures Calm(Step(db, e).db)
  {
    OnBookingRestates(db, e);
    if Step(db, e).db != db {
      assert BookingShape(db, e.b);
      RestatedKeepsCalm(db, Step(db, e).db, e.b);
    }
  }

  lemma StepKeepsCalm(db: Db, e: Event)
    requires Inv(db) && Calm(db) && Orderly(db, e) && Step(db, e).Ok? && !e.DoReport?
    ensures Inv(Step(db, e).db) && Calm(Step(db, e).db)
  {
    StepKeeps(db, e);
    if OnBooking(e) {
      OnBookingKeepsCalm(db, e);
    } else {
      match e
      case DoUploadSlip(_, _) => PaymentKeepsCalm(db, e);
      case DoApproveSlip(i, now) => ReviewKeepsCalm(db, i, now);
      case DoConfirmGroup(i, now) =>
        GroupConfirmationRestates(db, i, now);
        assert BookingShape(db, db.intents[i].booking);
        RestatedKeepsCalm(db, ConfirmGroup(db, i, now).db, db.intents[i].booking);
      case DoCreate(user, tutor, start, minutes, seats, now) =>
        CreateKeepsCalm(db, user, tutor, start, minutes, seats, now);
      case DoPropose(user, b, start, minutes, now) => ProposeKeepsCalm(db, user, b, start, minutes, now);
      case DoInitiate(user, b, reasonLength, now) => InitiateKeepsCalm(db, user, b, reasonLength, now);
      case DoSetRules(_, _) => PaymentKeepsCalm(db, e);
      case DoOpenIntent(_, _) => PaymentKeepsCalm(db, e);
      case DoFailGroup(b, reason) => FailureKeepsCalm(db, b, reason);
      case DoConfirm(user, b) => ConfirmKeeps(db, user, b); AgreeKeepsCalm(db, b);
      case DoCancelPostpone(user, b) =>
        CancelPostponeKeeps(db, user, b);
        SettleKeepsCalm(db, b, CancelOutcome(db.requests[db.bookings[b].request.value].role));
      case DoTimeout(r, engaged) =>
        TimeoutKeeps(db, r, engaged);
        if r < |db.requests| && db.requests[r].status == Negotiating {
          SettleKeepsCalm(db, db.requests[r].booking, TimeoutOutcome(db.requests[r].role, engaged));
        }
      case _ =>
    }
  }

  /** A good and calm database; `Refs` comes with the invariant. */
  ghost predicate CalmInv(db: Db) {
    Inv(db) && Calm(db)
  }

  ghost predicate MovesUnreported(db: Db, e: Event, db': Db) {
    !e.DoReport? && Moves(db, e, db')
  }

  lemma RunKeepsCalm(dbs: seq<Db>, es: seq<Event>, k: nat)
    requires IsRun(dbs, es) && k <= |es| && Inv(dbs[0]) && Calm(dbs[0])
    requires forall j :: 0 <= j < |es| ==> !es[j].DoReport?
    ensures Inv(dbs[k]) && Calm(dbs[k])
  {
    assert Preserved(MovesUnreported, CalmInv) by {
      forall db, e, db' | CalmInv(db) && MovesUnreported(db, e, db') ensures CalmInv(db') {
        if Step(db, e).Ok? { StepKeepsCalm(db, e); }
      }
    }
    HoldsAlong(MovesUnreported, CalmInv, dbs, es, 0, k);
  }

  /** The user may answer the open proposal of booking `b`. */
  ghost predicate MayConfirm(db: Db, user: User, b: nat)
    requires Inv(db)
  {
    && b < |db.bookings| && ProposedSlot(db, b).Some? && Participant(db, b, user)
    && db.requests[db.bookings[b].request.value].initiator != user
  }

  lemma OnlyRulesRefuse(db: Db, b: nat, u: User)
    requires Inv(db) && Calm(db) && b < |db.bookings| && ProposedSlot(db, b).Some? && Involves(db, b, u)
    ensures Guard(db, u, ProposedSlot(db, b).value, Some(b))
            == if RuleHit(db, u, ProposedSlot(db, b).value) then Some(TutorUnavailability) else None
  {
    OnlyPostponedOriginalsClash(db, b, u);
    assert !BookingHit(db, u, ProposedSlot(db, b).value, Some(b));
  }

  /** Wherever no report has been, a confirmation fails only on a weekly rule. */
  lemma ConfirmationStands(db: Db, user: User, b: nat)
    requires Inv(db) && Calm(db) && MayConfirm(db, user, b)
    ensures db.bookings[b].intent.Some?
    ensures var span := ProposedSlot(db, b).value;
            var blocked := RuleHit(db, db.bookings[b].student, span)
                           || RuleHit(db, db.tutors[db.bookings[b].tutor].user, span);
            Confirm(db, user, b) == if blocked then Refused(Clash(TutorUnavailability)) else Ok(Agree(db, b))
  {
    NegotiationIsFunded(db, b);
    OnlyRulesRefuse(db, b, db.bookings[b].student);
    OnlyRulesRefuse(db, b, db.tutors[db.bookings[b].tutor].user);
  }

  /** In any run, reports included: the confirmation succeeds exactly if on neither side another class's
      postponed original or a weekly rule covers the slot. */
  lemma ConfirmsIff(db: Db, user: User, b: nat)
    requires Inv(db) && MayConfirm(db, user, b)
    ensures var span, student, tutorUser :=
              ProposedSlot(db, b).value, db.bookings[b].student, db.tutors[db.bookings[b].tutor].user;
            Confirm(db, user, b).Ok? <==>
              && !PostponedHit(db, student, span, b) && !RuleHit(db, student, span)
              && !PostponedHit(db, tutorUser, span, b) && !RuleHit(db, tutorUser, span)
  {
    NegotiationIsFunded(db, b);
    OnlyPostponedOriginalsClash(db, b, db.bookings[b].student);
    OnlyPostponedOriginalsClash(db, b, db.tutors[db.bookings[b].tutor].user);
  }

  /** At any point of a run without reports the confirmation succeeds unless a weekly rule of one of the two
      parties covers the slot by then, and that is the reason given. */
  lemma OnlyRulesStandInTheWay(dbs: seq<Db>, es: seq<Event>, k: nat, user: User, b: nat)
    requires IsRun(dbs, es) && k <= |es| && Inv(dbs[0]) && Calm(dbs[0])
    requires forall j :: 0 <= j < |es| ==> !es[j].DoReport?
    requires Inv(dbs[k]) && MayConfirm(dbs[k], user, b)
    ensures dbs[k].bookings[b].intent.Some?
    ensures var db, span := dbs[k], ProposedSlot(dbs[k], b).value;
            var blocked := RuleHit(db, db.bookings[b].student, span)
                           || RuleHit(db, db.tutors[db.bookings[b].tutor].user, span);
            Confirm(db, user, b) == if blocked then Refused(Clash(TutorUnavailability)) else Ok(Agree(db, b))
  {
    RunKeepsCalm(dbs, es, k);
    ConfirmationStands(dbs[k], user, b);
  }

  // ---- from the proposal on ----------------------------------------------------------------------------

  /** The profile is one of the booking's two parties', and a rule of it covers the booking's open proposal. */
  ghost predicate Blocks(db: Db, b: nat, t: nat) {
    && t < |db.tutors| && b < |db.bookings| && BookingRefs(db, db.bookings[b])
    && Involves(db, b, db.tutors[t].user)
    && ProposedSlot(db, b).Some? && Blocked(db.zone, db.tutors[t].rules, ProposedSlot(db, b).value)
  }

  /** What the guard let through is blocked by nobody's rules. */
  lemma AcceptedIsUnblocked(db: Db, user: User, b: nat, start: int, minutes: nat, now: int, t: nat)
    requires Inv(db) && Propose(db, user, b, start, minutes, now).Ok?
    ensures !Blocks(Propose(db, user, b, start, minutes, now).db, b, t)
  {
    var db', span := Propose(db, user, b, start, minutes, now).db, Lesson(start, minutes);
    ProposedRow(db, b, Proposal(start, minutes), b);
    assert !RuleHit(db, db.bookings[b].student, span) && !RuleHit(db, db.tutors[db.bookings[b].tutor].user, span);
    assert t < |db.tutors| && Blocked(db.zone, db.tutors[t].rules, span) ==> RuleHit(db, db.tutors[t].user, span);
  }

  /** No profile but `edited` got other rules, no request a new proposal. */
  predicate SameRulesAndProposals(db: Db, db': Db, edited: Option<nat>) {
    && db'.zone == db.zone && |db'.tutors| == |db.tutors|
    && (forall t :: 0 <= t < |db.tutors| ==> db'.tutors[t].user == db.tutors[t].user)
    && (forall t :: 0 <= t < |db.tutors| && Some(t) != edited ==> db'.tutors[t].rules == db.tutors[t].rules)
    && (forall r :: 0 <= r < |db'.requests| ==>
          db'.requests[r].proposed == if r < |db.requests| then db.requests[r].proposed else None)
  }

  lemma SettleKeepsRules(db: Db, b: nat, outcome: Outcome)
    requires Refs(db) && b < |db.bookings| && db.bookings[b].request.Some? && db.bookings[b].intent.Some?
    ensures SameRulesAndProposals(db, Settle(db, b, outcome), None)
  {
  }

  lemma StepKeepsRules(db: Db, e: Event)
    requires Refs(db) && Step(db, e).Ok? && !e.DoPropose?
    ensures SameRulesAndProposals(db, Step(db, e).db, if e.DoSetRules? then Some(e.t) else None)
  {
    match e
    case DoCancelPostpone(_, b) =>
      SettleKeepsRules(db, b, CancelOutcome(db.requests[db.bookings[b].request.value].role));
    case DoTimeout(r, engaged) =>
      if Step(db, e).db != db {
        SettleKeepsRules(db, db.requests[r].booking, TimeoutOutcome(db.requests[r].role, engaged));
      }
    case _ =>
  }

  ghost predicate SavesRules(db: Db, e: Event, t: nat, later: Db) {
    e.DoSetRules? && e.t == t && SetRules(db, t, e.rules).Ok? && t < |later.tutors| && later.tutors[t].rules == e.rules
  }

  /** Between state j and state k the owner of profile `t` saved the rules that it has in state k. */
  ghost predicate SavedRules(dbs: seq<Db>, es: seq<Event>, j: nat, k: nat, t: nat)
    requires k <= |es| < |dbs|
  {
    exists m :: j < m < k && SavesRules(dbs[m], es[m], t, dbs[k])
  }

  /** The event is an accepted proposal for booking `b`. */
  ghost predicate Proposes(db: Db, e: Event, b: nat) {
    Refs(db) && e.DoPropose? && e.b == b && Step(db, e).Ok?
  }

  lemma ProposalUnblocked(dbs: seq<Db>, es: seq<Event>, j: nat, b: nat, t: nat)
    requires IsRun(dbs, es) && Inv(dbs[0]) && j < |es| && Proposes(dbs[j], es[j], b)
    ensures b < |dbs[j + 1].bookings| && !Blocks(dbs[j + 1], b, t)
  {
    RunKeepsInv(dbs, es, j);
    assert Moves(dbs[j], es[j], dbs[j + 1]);
    AcceptedIsUnblocked(dbs[j], es[j].user, b, es[j].start, es[j].minutes, es[j].now, t);
  }

  lemma BlockedAlready(db: Db, db': Db, edited: Option<nat>, b: nat, t: nat)
    requires Inv(db) && Inv(db') && Evolves(db, db') && SameRulesAndProposals(db, db', edited)
    requires b < |db.bookings| && Blocks(db', b, t) && Some(t) != edited
    ensures Blocks(db, b, t) && db'.tutors[t].rules == db.tutors[t].rules
  {
    var k, r := db.bookings[b], db'.bookings[b].request.value;
    assert BookingEvolves(k, db'.bookings[b]) && BookingShape(db, b) && BookingShape(db', b) && RequestShape(db', r);
    if r < |db.requests| {
      assert RequestEvolves(db.requests[r], db'.requests[r]) && RequestShape(db, r);
    }
  }

  /** What blocks the booking after an event blocked it before or has just been saved. */
  lemma BlockedBefore(db: Db, e: Event, db': Db, b: nat, t: nat)
    requires Inv(db) && Inv(db') && Moves(db, e, db') && b < |db.bookings| && Blocks(db', b, t)
    ensures SavesRules(db, e, t, db') || (Blocks(db, b, t) && db'.tutors[t].rules == db.tutors[t].rules)
  {
    if Step(db, e).Ok? {
      if Proposes(db, e, b) {
        AcceptedIsUnblocked(db, e.user, b, e.start, e.minutes, e.now, t);
      } else if e.DoPropose? {
        ProposedRow(db, e.b, Proposal(e.start, e.minutes), b);
      } else if !SavesRules(db, e, t, db') {
        StepKeepsRules(db, e);
        StepEvolves(db, e);
        BlockedAlready(db, db', if e.DoSetRules? then Some(e.t) else None, b, t);
      }
    }
  }

  /** A good database that has the booking. */
  ghost predicate GoodWith(db: Db, b: nat) {
    Inv(db) && b < |db.bookings|
  }

  lemma MoveTraceable(db: Db, e: Event, db': Db, b: nat, t: nat)
    requires GoodWith(db, b) && Moves(db, e, db')
    ensures GoodWith(db', b)
    ensures Blocks(db', b, t) ==>
              SavesRules(db, e, t, db') || (Blocks(db, b, t) && db'.tutors[t].rules == db.tutors[t].rules)
  {
    if Step(db, e).Ok? {
      StepKeeps(db, e);
      StepEvolves(db, e);
    }
    if Blocks(db', b, t) { BlockedBefore(db, e, db', b, t); }
  }

  /** In any orderly run, reports included: a rule that blocks an accepted proposal was saved after it. */
  lemma BlockersWereSaved(dbs: seq<Db>, es: seq<Event>, j: nat, k: nat, b: nat, t: nat)
    requires IsRun(dbs, es) && Inv(dbs[0]) && j < k <= |es| && Proposes(dbs[j], es[j], b)
    ensures b < |dbs[k].bookings| && (Blocks(dbs[k], b, t) ==> SavedRules(dbs, es, j, k, t))
  {
    var good, bad := (db: Db) => GoodWith(db, b), (db: Db) => Blocks(db, b, t);
    var culprit := (db: Db, e: Event, later: Db) => SavesRules(db, e, t, later);
    RunKeepsInv(dbs, es, j);
    ProposalUnblocked(dbs, es, j, b, t);
    RunKeepsInv(dbs, es, j + 1);
    forall db, e, db' | good(db) && Moves(db, e, db')
      ensures good(db')
      ensures bad(db') ==> culprit(db, e, db') || (bad(db) && forall p, f :: culprit(p, f, db) ==> culprit(p, f, db'))
    {
      MoveTraceable(db, e, db', b, t);
    }
    HoldsAlong(Moves, good, dbs, es, j + 1, k);
    TracedBack(Moves, good, bad, culprit, dbs, es, j + 1, k);
  }

  /** The rules in the way are those that block the booking. */
  lemma RulesInTheWay(db: Db, b: nat)
    requires Inv(db) && b < |db.bookings| && ProposedSlot(db, b).Some?
    ensures var span := ProposedSlot(db, b).value;
            (RuleHit(db, db.bookings[b].student, span) || RuleHit(db, db.tutors[db.bookings[b].tutor].user, span))
            <==> exists t :: Blocks(db, b, t)
  {
    var span := ProposedSlot(db, b).value;
    if u :| Involves(db, b, u) && RuleHit(db, u, span) {
      var t :| 0 <= t < |db.tutors| && db.tutors[t].user == u && Blocked(db.zone, db.tutors[t].rules, span);
      assert Blocks(db, b, t);
    }
    if t: nat :| Blocks(db, b, t) {
      assert RuleHit(db, db.tutors[t].user, span);
    }
  }

  /** In a run without reports, a proposal that the guard accepted is kept: at any later point the confirmation is
      refused if and only if one of the two parties has saved, since the proposal, weekly rules that cover the slot
      and still has them; that is then the reason given. */
  lemma ProposalIsKept(dbs: seq<Db>, es: seq<Event>, j: nat, k: nat, user: User, b: nat)
    requires IsRun(dbs, es) && Inv(dbs[0]) && Calm(dbs[0]) && forall n :: 0 <= n < |es| ==> !es[n].DoReport?
    requires j < k <= |es| && Proposes(dbs[j], es[j], b) && Inv(dbs[k]) && MayConfirm(dbs[k], user, b)
    ensures dbs[k].bookings[b].intent.Some?
    ensures Confirm(dbs[k], user, b)
            == if exists t :: Blocks(dbs[k], b, t) && SavedRules(dbs, es, j, k, t)
               then Refused(Clash(TutorUnavailability)) else Ok(Agree(dbs[k], b))
  {
    OnlyRulesStandInTheWay(dbs, es, k, user, b);
    RulesInTheWay(dbs[k], b);
    forall t | Blocks(dbs[k], b, t) ensures SavedRules(dbs, es, j, k, t) { BlockersWereSaved(dbs, es, j, k, b, t); }
  }

  /** In particular it succeeds as long as nobody has edited weekly rules since. */
  lemma KeptWithoutEdits(dbs: seq<Db>, es: seq<Event>, j: nat, k: nat, user: User, b: nat)
    requires IsRun(dbs, es) && Inv(dbs[0]) && Calm(dbs[0]) && forall n :: 0 <= n < |es| ==> !es[n].DoReport?
    requires j < k <= |es| && Proposes(dbs[j], es[j], b) && Inv(dbs[k]) && MayConfirm(dbs[k], user, b)
    requires forall m :: j < m < k ==> !es[m].DoSetRules?
    ensures Confirm(dbs[k], user, b).Ok?
  {
    ProposalIsKept(dbs, es, j, k, user, b);
  }
}
