/** What a refusal tells: which check speaks first, and what a reported clash is about. */
module Refusals {
  import opened Basics
  import opened Bookings
  import opened BookingInvariants
  import opened BookingRuns
  import opened Permissions

  // ---- clashes, by the clock ----------------------------------------------------------------------------

  /** Another booking of the user, moved originals included, is on at instant `t`. */
  ghost predicate InClass(db: Db, u: User, t: int, exclude: Option<nat>)
    requires Refs(db)
  {
    exists b: nat :: b < |db.bookings| && Some(b) != exclude && Attends(db, b, u) && IsOn(db.bookings[b], t)
  }

  /** Another booking of the user is proposed to move to a time that includes instant `t`. */
  ghost predicate WantedElsewhere(db: Db, u: User, t: int, exclude: Option<nat>)
    requires Refs(db)
  {
    exists b: nat :: b < |db.bookings| && Some(b) != exclude && Attends(db, b, u) && IsProposed(db, db.bookings[b], t)
  }

  /** What keeps the user busy in that time: a class if there is one, then a proposal, then a weekly rule. */
  ghost function Hindrance(db: Db, u: User, start: int, minutes: int, exclude: Option<nat>): ClashSource
    requires Refs(db)
  {
    if exists t :: During(start, minutes, t) && InClass(db, u, t, exclude) then ExistingBooking
    else if exists t :: During(start, minutes, t) && WantedElsewhere(db, u, t, exclude) then PostponeProposal
    else TutorUnavailability
  }

  lemma BookingHitByTheClock(db: Db, u: User, start: int, minutes: int, exclude: Option<nat>)
    requires TimedInv(db) && minutes > 0
    ensures BookingHit(db, u, Lesson(start, minutes), exclude)
            <==> exists t :: During(start, minutes, t) && InClass(db, u, t, exclude)
  {
    forall b: nat | b < |db.bookings|
      ensures Involves(db, b, u) <==> Attends(db, b, u)
      ensures Active(db.bookings[b].status) && Overlap(OwnSlot(db.bookings[b]), Lesson(start, minutes))
              <==> exists t :: During(start, minutes, t) && IsOn(db.bookings[b], t)
    {
      OwnSlotByTheClock(db, b, start, minutes);
    }
    if b: nat, t :| b < |db.bookings| && Some(b) != exclude && Attends(db, b, u)
                    && During(start, minutes, t) && IsOn(db.bookings[b], t) {
      assert InClass(db, u, t, exclude);
    }
  }

  lemma ProposalHitByTheClock(db: Db, u: User, start: int, minutes: int, exclude: Option<nat>)
    requires TimedInv(db) && minutes > 0
    ensures ProposalHit(db, u, Lesson(start, minutes), exclude)
            <==> exists t :: During(start, minutes, t) && WantedElsewhere(db, u, t, exclude)
  {
    forall b: nat | b < |db.bookings|
      ensures Involves(db, b, u) <==> Attends(db, b, u)
      ensures ProposedSlot(db, b).Some? && Overlap(ProposedSlot(db, b).value, Lesson(start, minutes))
              <==> exists t :: During(start, minutes, t) && IsProposed(db, db.bookings[b], t)
    {
      ProposalByTheClock(db, b, start, minutes);
    }
    if b: nat, t :| b < |db.bookings| && Some(b) != exclude && Attends(db, b, u)
                    && During(start, minutes, t) && IsProposed(db, db.bookings[b], t) {
      assert WantedElsewhere(db, u, t, exclude);
    }
  }

  /** The guard names the hindrance. */
  lemma GuardNames(db: Db, u: User, start: int, minutes: int, exclude: Option<nat>)
    requires TimedInv(db) && minutes > 0
    ensures Guard(db, u, Lesson(start, minutes), exclude)
            == if FreeFor(db, u, start, minutes, exclude) then None else Some(Hindrance(db, u, start, minutes, exclude))
  {
    GuardByTheClock(db, u, start, minutes, exclude);
    BookingHitByTheClock(db, u, start, minutes, exclude);
    ProposalHitByTheClock(db, u, start, minutes, exclude);
  }

  /** The student's hindrance is named if there is one, otherwise the tutor's. */
  ghost function HindranceOfBoth(db: Db, student: User, tutor: User, start: int, minutes: int,
                                 exclude: Option<nat>): ClashSource
    requires Refs(db)
  {
    Hindrance(db, if FreeFor(db, student, start, minutes, exclude) then tutor else student, start, minutes, exclude)
  }

  // ---- which check speaks first ---------------------------------------------------------------------------

  /** The request makes no sense, whatever the tables hold. */
  predicate Malformed(e: Event) {
    match e
    case DoCreate(_, _, _, minutes, _, _) => minutes !in {60, 90, 120}
    case DoInitiate(_, _, reasonLength, _) => reasonLength < 5 || reasonLength > 500
    case DoPropose(_, _, start, minutes, now) => minutes !in {30, 60, 90, 120} || BangkokDay(start) <= BangkokDay(now)
    case _ => false
  }

  /** The row it is about does not exist. */
  predicate Missing(db: Db, e: Event) {
    match e
    case DoCreate(_, tutor, _, _, _, _) => tutor >= |db.tutors|
    case DoSetRules(t, _) => t >= |db.tutors|
    case DoUploadSlip(_, i) => i >= |db.intents|
    case DoApproveSlip(i, _) => i >= |db.intents|
    case DoConfirmGroup(i, _) => i >= |db.intents|
    case DoTimeout(_, _) => false
    case _ => e.b >= |db.bookings|
  }

  /** It is not for this user to ask. */
  predicate Stranger(db: Db, e: Event)
    requires !Missing(db, e)
  {
    match e
    case DoCreate(user, tutor, _, _, _, now) =>
      db.tutors[tutor].user == user
      || (db.tutors[tutor].suspendedUntil.Some? && db.tutors[tutor].suspendedUntil.value > now)
    case DoAccept(user, b) => !Teaches(db, user, b)
    case DoReject(user, b) => !Teaches(db, user, b)
    case DoCancel(user, b) => !Learns(db, user, b)
    case DoReport(user, b, _) => !Learns(db, user, b)
    case DoOpenIntent(user, b) => !Learns(db, user, b)
    case DoUploadSlip(user, i) => db.intents[i].payer != user
    case DoInitiate(user, b, _, _) => !Teaches(db, user, b) && !Learns(db, user, b)
    case DoPropose(user, b, _, _, _) => !Teaches(db, user, b) && !Learns(db, user, b)
    case DoConfirm(user, b) => !Teaches(db, user, b) && !Learns(db, user, b)
    case DoCancelPostpone(user, b) => !Teaches(db, user, b) && !Learns(db, user, b)
    case _ => false
  }

  /** The steps that look at calendars are ready to do so. */
  predicate ComesToCalendars(db: Db, e: Event)
    requires !Missing(db, e)
  {
    match e
    case DoCreate(_, _, start, _, seats, now) =>
      now <= start && (seats.Some? ==> 2 <= seats.value <= 10 && BangkokDay(start) > BangkokDay(now))
    case DoPropose(user, b, _, _, _) => Negotiates(db, user, b)
    case DoConfirm(user, b) => Negotiates(db, user, b) && db.requests[db.bookings[b].request.value].proposed.Some?
    case _ => false
  }

  /** A slot is proposed by the side that opened the negotiation, and confirmed by the other. */
  predicate WrongSide(db: Db, e: Event)
    requires !Missing(db, e) && ComesToCalendars(db, e)
  {
    match e
    case DoPropose(user, b, _, _, _) => db.requests[db.bookings[b].request.value].initiator != user
    case DoConfirm(user, b) => db.requests[db.bookings[b].request.value].initiator == user
    case _ => false
  }

  /** The clash that a request which got this far is refused with. */
  ghost function ClashOf(db: Db, e: Event): Refusal
    requires Refs(db) && !Missing(db, e) && ComesToCalendars(db, e)
  {
    match e
    case DoCreate(user, tutor, start, minutes, _, _) =>
      Clash(HindranceOfBoth(db, user, db.tutors[tutor].user, start, minutes, None))
    case DoPropose(_, b, start, minutes, _) =>
      Clash(HindranceOfBoth(db, db.bookings[b].student, db.tutors[db.bookings[b].tutor].user, start, minutes, Some(b)))
    case DoConfirm(_, b) =>
      var p := db.requests[db.bookings[b].request.value].proposed.value;
      Clash(HindranceOfBoth(db, db.bookings[b].student, db.tutors[db.bookings[b].tutor].user,
                            p.start, p.minutes, Some(b)))
  }

  ghost function Reason(db: Db, e: Event): Refusal
    requires Refs(db)
  {
    if Malformed(e) then BadRequest
    else if Missing(db, e) then NotFound
    else if Stranger(db, e) then Forbidden
    else if !ComesToCalendars(db, e) then BadRequest
    else if WrongSide(db, e) then Forbidden
    else ClashOf(db, e)
  }

  lemma GuardNamesBoth(db: Db, student: User, tutor: User, start: int, minutes: int, exclude: Option<nat>)
    requires TimedInv(db) && minutes > 0
    ensures GuardBoth(db, student, tutor, Lesson(start, minutes), exclude)
            == if FreeFor(db, student, start, minutes, exclude) && FreeFor(db, tutor, start, minutes, exclude) then None
               else Some(HindranceOfBoth(db, student, tutor, start, minutes, exclude))
  {
    GuardNames(db, student, start, minutes, exclude);
    GuardNames(db, tutor, start, minutes, exclude);
  }

  lemma CreateRefusedFor(db: Db, e: Event)
    requires TimedInv(db) && Step(db, e).Refused? && e.DoCreate?
    ensures Step(db, e) == Refused(Reason(db, e))
  {
    LaterDay(e.start, e.now);
    if e.minutes > 0 && e.tutor < |db.tutors| {
      GuardNamesBoth(db, e.user, db.tutors[e.tutor].user, e.start, e.minutes, None);
    }
  }

  lemma ProposeRefusedFor(db: Db, e: Event)
    requires TimedInv(db) && Step(db, e).Refused? && e.DoPropose?
    ensures Step(db, e) == Refused(Reason(db, e))
  {
    LaterDay(e.start, e.now);
    if e.minutes > 0 && e.b < |db.bookings| {
      GuardNamesBoth(db, db.bookings[e.b].student, db.tutors[db.bookings[e.b].tutor].user, e.start, e.minutes, Some(e.b));
    }
  }

  lemma ConfirmRefusedFor(db: Db, e: Event)
    requires TimedInv(db) && Step(db, e).Refused? && e.DoConfirm?
    ensures Step(db, e) == Refused(Reason(db, e))
  {
    if Negotiates(db, e.user, e.b) && db.requests[db.bookings[e.b].request.value].proposed.Some? {
      var k, p := db.bookings[e.b], db.requests[db.bookings[e.b].request.value].proposed.value;
      NegotiationIsFunded(db, e.b);
      GuardNamesBoth(db, k.student, db.tutors[k.tutor].user, p.start, p.minutes, Some(e.b));
    }
  }

  /** A refusal names the first thing that is wrong: what makes no sense, what does not exist, who has no say, what
      is not due, whose turn it is not, and last the calendars. So a stranger learns nothing about a class, and
      nobody learns of a clash in a request that would be refused without it. */
  lemma RefusedFor(db: Db, e: Event)
    requires TimedInv(db) && Step(db, e).Refused?
    ensures Step(db, e) == Refused(Reason(db, e))
  {
    match e
    case DoCreate(_, _, _, _, _, _) => CreateRefusedFor(db, e);
    case DoPropose(_, _, _, _, _) => ProposeRefusedFor(db, e);
    case DoConfirm(_, _) => ConfirmRefusedFor(db, e);
    case _ => AcceptedIffPermitted(db, e);
  }
}
