/** Who may do what, and when: the guard and every refusal, said of people, clocks and days. */
module Permissions {
  import opened Basics
  import opened RefundPolicy
  import opened Runs
  import opened WeeklyRules
  import opened Bookings
  import opened BookingInvariants
  import opened BookingRuns

  // ---- calendars, instant by instant ------------------------------------------------------------------

  /** The user learns or teaches in the booking. */
  predicate Attends(db: Db, b: nat, u: User)
    requires b < |db.bookings| && BookingRefs(db, db.bookings[b])
  {
    u in {db.bookings[b].student, db.tutors[db.bookings[b].tutor].user}
  }

  predicate During(start: int, minutes: int, t: int) {
    start <= t < start + minutes * 60_000
  }

  /** The class is on at instant `t`: asked for, accepted, paid, or about to be moved. */
  predicate TakesPlace(k: Booking, t: int) {
    k.status in {Requested, Accepted, Paid, PostponePending} && During(k.start, k.minutes, t)
  }

  /** Its open negotiation proposes a time that includes instant `t`. */
  predicate IsProposed(db: Db, k: Booking, t: int)
    requires BookingRefs(db, k)
  {
    && k.request.Some?
    && var q := db.requests[k.request.value];
       q.status == Negotiating && q.proposed.Some? && During(q.proposed.value.start, q.proposed.value.minutes, t)
  }

  /** At no instant is anybody in two classes, or in a class and in a time proposed for another. */
  lemma NobodyIsInTwoPlaces(db: Db, a: nat, b: nat, u: User, t: int)
    requires Inv(db) && a < |db.bookings| && b < |db.bookings| && a != b && Attends(db, a, u) && Attends(db, b, u)
    ensures !((TakesPlace(db.bookings[a], t) || IsProposed(db, db.bookings[a], t))
              && (TakesPlace(db.bookings[b], t) || IsProposed(db, db.bookings[b], t)))
  {
    if TakesPlace(db.bookings[a], t) { assert Reserves(db, a, OwnSlot(db.bookings[a])); }
    if TakesPlace(db.bookings[b], t) { assert Reserves(db, b, OwnSlot(db.bookings[b])); }
    if IsProposed(db, db.bookings[a], t) { assert Reserves(db, a, ProposedSlot(db, a).value); }
    if IsProposed(db, db.bookings[b], t) { assert Reserves(db, b, ProposedSlot(db, b).value); }
    assert Involves(db, a, u) && Involves(db, b, u);
  }

  /** The class is on at instant `t`, for the guard: an original that was moved away still counts. */
  predicate IsOn(k: Booking, t: int) {
    TakesPlace(k, t) || (k.status == Postponed && During(k.start, k.minutes, t))
  }

  /** Another booking keeps the user busy at instant `t`. */
  predicate ClassAt(db: Db, b: nat, t: int)
    requires b < |db.bookings| && BookingRefs(db, db.bookings[b])
  {
    IsOn(db.bookings[b], t) || IsProposed(db, db.bookings[b], t)
  }

  /** A weekly rule of the user's own profile covers instant `t`. */
  ghost predicate OffWork(db: Db, u: User, t: int) {
    exists p, r :: 0 <= p < |db.tutors| && db.tutors[p].user == u && r in db.tutors[p].rules && FallsIn(db.zone, r, t)
  }

  ghost predicate BusyAt(db: Db, u: User, t: int, exclude: Option<nat>)
    requires Refs(db)
  {
    || (exists b: nat :: b < |db.bookings| && Some(b) != exclude && Attends(db, b, u) && ClassAt(db, b, t))
    || OffWork(db, u, t)
  }

  ghost predicate FreeFor(db: Db, u: User, start: int, minutes: int, exclude: Option<nat>)
    requires Refs(db)
  {
    forall t :: During(start, minutes, t) ==> !BusyAt(db, u, t, exclude)
  }

  /** Every class and every proposed time lasts half an hour to two hours. */
  predicate Timed(db: Db) {
    && (forall b :: 0 <= b < |db.bookings| ==> db.bookings[b].minutes in {30, 60, 90, 120})
    && (forall r :: 0 <= r < |db.requests| && db.requests[r].proposed.Some? ==>
          db.requests[r].proposed.value.minutes in {30, 60, 90, 120})
  }

  ghost predicate TimedInv(db: Db) {
    Inv(db) && Timed(db)
  }

  lemma RulesByTheClock(db: Db, u: User, start: int, minutes: int)
    requires ProfilesOk(db.tutors) && minutes > 0
    ensures RuleHit(db, u, Lesson(start, minutes)) <==> exists t :: During(start, minutes, t) && OffWork(db, u, t)
  {
    var span := Lesson(start, minutes);
    if p :| 0 <= p < |db.tutors| && db.tutors[p].user == u && Blocked(db.zone, db.tutors[p].rules, span) {
      BlockedMeans(db.zone, db.tutors[p].rules, span);
      var t, k :| span.lo <= t < span.hi && 0 <= k < |db.tutors[p].rules| && FallsIn(db.zone, db.tutors[p].rules[k], t);
      assert During(start, minutes, t) && OffWork(db, u, t);
    }
    if t :| During(start, minutes, t) && OffWork(db, u, t) {
      var p, r :| 0 <= p < |db.tutors| && db.tutors[p].user == u && r in db.tutors[p].rules && FallsIn(db.zone, r, t);
      var k :| 0 <= k < |db.tutors[p].rules| && db.tutors[p].rules[k] == r;
      BlockedMeans(db.zone, db.tutors[p].rules, span);
      assert Blocked(db.zone, db.tutors[p].rules, span);
    }
  }

  lemma OwnSlotByTheClock(db: Db, b: nat, start: int, minutes: int)
    requires Refs(db) && Timed(db) && b < |db.bookings| && minutes > 0
    ensures Active(db.bookings[b].status) && Overlap(OwnSlot(db.bookings[b]), Lesson(start, minutes))
            <==> exists t :: During(start, minutes, t) && IsOn(db.bookings[b], t)
  {
    var k, span := db.bookings[b], Lesson(start, minutes);
    OverlapIsCommonInstant(OwnSlot(k), span);
    if t :| Covers(OwnSlot(k), t) && Covers(span, t) && Active(k.status) {
      assert During(start, minutes, t) && IsOn(k, t);
    }
    if t :| During(start, minutes, t) && IsOn(k, t) {
      assert Covers(OwnSlot(k), t) && Covers(span, t);
    }
  }

  lemma ProposalByTheClock(db: Db, b: nat, start: int, minutes: int)
    requires Refs(db) && Timed(db) && b < |db.bookings| && minutes > 0
    ensures ProposedSlot(db, b).Some? && Overlap(ProposedSlot(db, b).value, Lesson(start, minutes))
            <==> exists t :: During(start, minutes, t) && IsProposed(db, db.bookings[b], t)
  {
    var span := Lesson(start, minutes);
    assert BookingRefs(db, db.bookings[b]);
    if ProposedSlot(db, b).Some? {
      OverlapIsCommonInstant(ProposedSlot(db, b).value, span);
      if t :| Covers(ProposedSlot(db, b).value, t) && Covers(span, t) {
        assert During(start, minutes, t) && IsProposed(db, db.bookings[b], t);
      }
      if t :| During(start, minutes, t) && IsProposed(db, db.bookings[b], t) {
        assert Covers(ProposedSlot(db, b).value, t) && Covers(span, t);
      }
    }
  }

  lemma SlotsByTheClock(db: Db, b: nat, start: int, minutes: int)
    requires Refs(db) && Timed(db) && b < |db.bookings| && minutes > 0
    ensures var span := Lesson(start, minutes);
            (Active(db.bookings[b].status) && Overlap(OwnSlot(db.bookings[b]), span))
            || (ProposedSlot(db, b).Some? && Overlap(ProposedSlot(db, b).value, span))
            <==> exists t :: During(start, minutes, t) && ClassAt(db, b, t)
  {
    OwnSlotByTheClock(db, b, start, minutes);
    ProposalByTheClock(db, b, start, minutes);
    if t :| During(start, minutes, t) && IsOn(db.bookings[b], t) { assert ClassAt(db, b, t); }
    if t :| During(start, minutes, t) && IsProposed(db, db.bookings[b], t) { assert ClassAt(db, b, t); }
  }

  /** The guard lets a time through exactly if at no instant of it the user is in another class, moved
      originals included, wanted for another by an open proposal, or off work. */
  lemma GuardByTheClock(db: Db, u: User, start: int, minutes: int, exclude: Option<nat>)
    requires TimedInv(db) && minutes > 0
    ensures Guard(db, u, Lesson(start, minutes), exclude).None? <==> FreeFor(db, u, start, minutes, exclude)
  {
    var span := Lesson(start, minutes);
    RulesByTheClock(db, u, start, minutes);
    forall b: nat | b < |db.bookings|
      ensures Involves(db, b, u) <==> Attends(db, b, u)
      ensures (Active(db.bookings[b].status) && Overlap(OwnSlot(db.bookings[b]), span))
              || (ProposedSlot(db, b).Some? && Overlap(ProposedSlot(db, b).value, span))
              <==> exists t :: During(start, minutes, t) && ClassAt(db, b, t)
    {
      SlotsByTheClock(db, b, start, minutes);
    }
    if Guard(db, u, span, exclude).None? {
      forall t | During(start, minutes, t) ensures !BusyAt(db, u, t, exclude) {
        assert !RuleHit(db, u, span) && !BookingHit(db, u, span, exclude) && !ProposalHit(db, u, span, exclude);
      }
    } else if RuleHit(db, u, span) {
      var t :| During(start, minutes, t) && OffWork(db, u, t);
      assert BusyAt(db, u, t, exclude);
    } else {
      var b: nat :| b < |db.bookings| && Some(b) != exclude && Involves(db, b, u)
                    && ((Active(db.bookings[b].status) && Overlap(OwnSlot(db.bookings[b]), span))
                        || (ProposedSlot(db, b).Some? && Overlap(ProposedSlot(db, b).value, span)));
      var t :| During(start, minutes, t) && ClassAt(db, b, t);
      assert BusyAt(db, u, t, exclude);
    }
  }

  // ---- lengths along a run --------------------------------------------------------------------------------

  lemma SettleKeepsLengths(db: Db, b: nat, outcome: Outcome)
    requires TimedInv(db) && OpenNegotiation(db, b)
    ensures Timed(Settle(db, b, outcome))
  {
  }

  lemma PaymentKeepsLengths(db: Db, e: Event)
    requires TimedInv(db) && Step(db, e).Ok?
    requires e.DoOpenIntent? || e.DoUploadSlip? || e.DoApproveSlip? || e.DoConfirmGroup? || e.DoFailGroup?
             || e.DoSetRules?
    ensures Timed(Step(db, e).db)
  {
  }

  lemma RequestKeepsLengths(db: Db, e: Event)
    requires TimedInv(db) && Step(db, e).Ok? && (e.DoCreate? || e.DoInitiate? || e.DoPropose?)
    ensures Timed(Step(db, e).db)
  {
  }

  lemma AgreementKeepsLengths(db: Db, user: User, b: nat)
    requires TimedInv(db) && Confirm(db, user, b).Ok?
    ensures Timed(Confirm(db, user, b).db)
  {
    ConfirmKeeps(db, user, b);
  }

  lemma StepKeepsLengths(db: Db, e: Event)
    requires TimedInv(db) && Step(db, e).Ok?
    ensures Timed(Step(db, e).db)
  {
    if OnBooking(e) {
      OnBookingRestates(db, e);
    } else if e.DoCancelPostpone? {
      CancelPostponeKeeps(db, e.user, e.b);
      SettleKeepsLengths(db, e.b, CancelOutcome(db.requests[db.bookings[e.b].request.value].role));
    } else if e.DoTimeout? {
      TimeoutKeeps(db, e.r, e.engaged);
      if e.r < |db.requests| && db.requests[e.r].status == Negotiating {
        SettleKeepsLengths(db, db.requests[e.r].booking, TimeoutOutcome(db.requests[e.r].role, e.engaged));
      }
    } else if e.DoConfirm? {
      AgreementKeepsLengths(db, e.user, e.b);
    } else if e.DoCreate? || e.DoInitiate? || e.DoPropose? {
      RequestKeepsLengths(db, e);
    } else {
      PaymentKeepsLengths(db, e);
    }
  }

  /** In every state of every run that starts with sound lengths. */
  lemma RunKeepsLengths(dbs: seq<Db>, es: seq<Event>, k: nat)
    requires IsRun(dbs, es) && TimedInv(dbs[0]) && k <= |es|
    ensures TimedInv(dbs[k])
  {
    forall db, e, db' | TimedInv(db) && Moves(db, e, db') ensures TimedInv(db') {
      if Step(db, e).Ok? { StepKeeps(db, e); StepKeepsLengths(db, e); }
    }
    HoldsAlong(Moves, TimedInv, dbs, es, 0, k);
  }

  // ---- what is accepted -----------------------------------------------------------------------------------

  /** Calendar days in Bangkok, seven hours ahead of UTC. */
  function BangkokDay(t: int): int {
    (t + 25_200_000) / 86_400_000
  }

  predicate HasBooking(db: Db, b: nat) {
    b < |db.bookings| && BookingRefs(db, db.bookings[b])
  }

  /** The user teaches the class. */
  predicate Teaches(db: Db, user: User, b: nat) {
    HasBooking(db, b) && db.tutors[db.bookings[b].tutor].user == user
  }

  predicate Learns(db: Db, user: User, b: nat) {
    HasBooking(db, b) && db.bookings[b].student == user
  }

  /** One of the two may take part in the open negotiation of the class. */
  predicate Negotiates(db: Db, user: User, b: nat) {
    && (Teaches(db, user, b) || Learns(db, user, b))
    && db.bookings[b].request.Some? && db.requests[db.bookings[b].request.value].status == Negotiating
  }

  ghost predicate BothFree(db: Db, b: nat, start: int, minutes: int)
    requires Refs(db) && b < |db.bookings|
  {
    && FreeFor(db, db.bookings[b].student, start, minutes, Some(b))
    && FreeFor(db, db.tutors[db.bookings[b].tutor].user, start, minutes, Some(b))
  }

  /** A request for a class: a length on offer, another person's profile that is not suspended, a time to come on
      which both are free; a group has two to ten seats and begins on a later day. */
  ghost predicate MayCreate(db: Db, user: User, tutor: nat, start: int, minutes: nat, seats: Option<nat>, now: int)
    requires Refs(db)
  {
    && minutes in {60, 90, 120} && tutor < |db.tutors| && db.tutors[tutor].user != user
    && (db.tutors[tutor].suspendedUntil.Some? ==> db.tutors[tutor].suspendedUntil.value <= now)
    && now <= start && (seats.Some? ==> 2 <= seats.value <= 10 && BangkokDay(start) > BangkokDay(now))
    && FreeFor(db, user, start, minutes, None) && FreeFor(db, db.tutors[tutor].user, start, minutes, None)
  }

  /** The side that asked proposes: a length on offer on a later day, on which both are otherwise free. */
  ghost predicate MayPropose(db: Db, user: User, b: nat, start: int, minutes: nat, now: int)
    requires Refs(db)
  {
    && Negotiates(db, user, b) && db.requests[db.bookings[b].request.value].initiator == user
    && minutes in {30, 60, 90, 120} && BangkokDay(start) > BangkokDay(now) && BothFree(db, b, start, minutes)
  }

  /** The other side confirms, while both are still otherwise free. */
  ghost predicate MayConfirmSlot(db: Db, user: User, b: nat)
    requires Refs(db)
  {
    && Negotiates(db, user, b)
    && var q := db.requests[db.bookings[b].request.value];
       q.initiator != user && q.proposed.Some? && BothFree(db, b, q.proposed.value.start, q.proposed.value.minutes)
  }

  /** Either side opens a negotiation, once, about a paid class that has not begun, giving a reason. */
  predicate MayInitiate(db: Db, user: User, b: nat, reasonLength: nat, now: int) {
    && (Teaches(db, user, b) || Learns(db, user, b)) && 5 <= reasonLength <= 500
    && db.bookings[b].status == Paid && db.bookings[b].request.None? && now < db.bookings[b].start
  }

  /** The student pays for an accepted class, or for a group that is still gathering. */
  predicate MayPay(db: Db, user: User, b: nat) {
    Learns(db, user, b)
    && ((db.bookings[b].phase == OneOnOne && db.bookings[b].status == Accepted) || db.bookings[b].phase == Gathering)
  }

  /** Who may do what, and when. The daily job and the timers refuse nothing: they pass by. */
  ghost predicate Permitted(db: Db, e: Event)
    requires Refs(db)
  {
    match e
    case DoCreate(user, tutor, start, minutes, seats, now) => MayCreate(db, user, tutor, start, minutes, seats, now)
    case DoAccept(user, b) =>
      Teaches(db, user, b) && db.bookings[b].phase == OneOnOne && db.bookings[b].status == Requested
    case DoReject(user, b) =>
      Teaches(db, user, b) && db.bookings[b].phase == OneOnOne && db.bookings[b].status == Requested
    case DoCancel(user, b) =>
      Learns(db, user, b) && db.bookings[b].phase == OneOnOne && db.bookings[b].status in {Requested, Accepted}
    case DoReport(user, b, now) =>
      Learns(db, user, b) && db.bookings[b].reportEnds.Some? && now <= db.bookings[b].reportEnds.value
    case DoOpenIntent(user, b) => MayPay(db, user, b)
    case DoUploadSlip(user, i) => i < |db.intents| && db.intents[i].payer == user
    case DoApproveSlip(i, _) => i < |db.intents| && db.intents[i].status in {SlipUploaded, Verifying, SlipFailed}
    case DoRelease(b, _) => HasBooking(db, b)
    case DoConfirmGroup(i, _) =>
      i < |db.intents| && db.intents[i].status == HeldInEscrow && HasBooking(db, db.intents[i].booking)
      && db.bookings[db.intents[i].booking].phase == Gathering
    case DoFailGroup(b, _) => HasBooking(db, b) && db.bookings[b].phase == Gathering
    case DoInitiate(user, b, reasonLength, now) => MayInitiate(db, user, b, reasonLength, now)
    case DoPropose(user, b, start, minutes, now) => MayPropose(db, user, b, start, minutes, now)
    case DoConfirm(user, b) => MayConfirmSlot(db, user, b)
    case DoCancelPostpone(user, b) => Negotiates(db, user, b)
    case DoTimeout(_, _) => true
    case DoSetRules(t, rules) =>
      t < |db.tutors| && forall r :: r in rules ==>
        0 <= r.weekday <= 6 && 0 <= r.startMinute < r.endMinute <= 1440
  }

  lemma LaterDay(start: int, now: int)
    ensures start >= StartOfTomorrow(now) <==> BangkokDay(start) > BangkokDay(now)
  {
  }

  lemma CreateAcceptedIff(db: Db, user: User, tutor: nat, start: int, minutes: nat, seats: Option<nat>, now: int)
    requires TimedInv(db)
    ensures Create(db, user, tutor, start, minutes, seats, now).Ok?
            <==> MayCreate(db, user, tutor, start, minutes, seats, now)
  {
    LaterDay(start, now);
    if minutes > 0 && tutor < |db.tutors| {
      GuardByTheClock(db, user, start, minutes, None);
      GuardByTheClock(db, db.tutors[tutor].user, start, minutes, None);
    }
  }

  lemma ProposeAcceptedIff(db: Db, user: User, b: nat, start: int, minutes: nat, now: int)
    requires TimedInv(db)
    ensures Propose(db, user, b, start, minutes, now).Ok? <==> MayPropose(db, user, b, start, minutes, now)
  {
    LaterDay(start, now);
    if minutes > 0 && b < |db.bookings| {
      GuardByTheClock(db, db.bookings[b].student, start, minutes, Some(b));
      GuardByTheClock(db, db.tutors[db.bookings[b].tutor].user, start, minutes, Some(b));
    }
  }

  lemma ConfirmAcceptedIff(db: Db, user: User, b: nat)
    requires TimedInv(db)
    ensures Confirm(db, user, b).Ok? <==> MayConfirmSlot(db, user, b)
  {
    if Negotiates(db, user, b) && db.requests[db.bookings[b].request.value].proposed.Some? {
      var p := db.requests[db.bookings[b].request.value].proposed.value;
      NegotiationIsFunded(db, b);
      GuardByTheClock(db, db.bookings[b].student, p.start, p.minutes, Some(b));
      GuardByTheClock(db, db.tutors[db.bookings[b].tutor].user, p.start, p.minutes, Some(b));
    }
  }

  lemma NegotiationAcceptedIff(db: Db, e: Event)
    requires TimedInv(db) && (e.DoCancelPostpone? || e.DoTimeout?)
    ensures Step(db, e).Ok? <==> Permitted(db, e)
  {
    if e.DoTimeout? && e.r < |db.requests| && db.requests[e.r].status == Negotiating {
      assert RequestShape(db, e.r);
      NegotiationIsFunded(db, db.requests[e.r].booking);
    }
    if e.DoCancelPostpone? && Negotiates(db, e.user, e.b) { NegotiationIsFunded(db, e.b); }
  }

  /** In every good state a step is accepted if and only if it is permitted. */
  lemma AcceptedIffPermitted(db: Db, e: Event)
    requires TimedInv(db)
    ensures Step(db, e).Ok? <==> Permitted(db, e)
  {
    match e
    case DoCreate(user, tutor, start, minutes, seats, now) =>
      CreateAcceptedIff(db, user, tutor, start, minutes, seats, now);
    case DoPropose(user, b, start, minutes, now) => ProposeAcceptedIff(db, user, b, start, minutes, now);
    case DoConfirm(user, b) => ConfirmAcceptedIff(db, user, b);
    case DoCancelPostpone(_, _) => NegotiationAcceptedIff(db, e);
    case DoTimeout(_, _) => NegotiationAcceptedIff(db, e);
    case _ =>
  }
}
