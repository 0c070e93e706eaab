/** Runs of the booking core: any sequence of requests, payments, reports, negotiations and timer
    firings, at any clock values, and what holds after every one of them. */
module BookingRuns {
  import opened Basics
  import opened RefundPolicy
  import opened Runs
  import opened WeeklyRules
  import opened Bookings
  import opened BookingInvariants
  import opened SlipSteps

  datatype Event =
    | DoCreate(user: User, tutor: nat, start: int, minutes: nat, seats: Option<nat>, now: int)
    | DoAccept(user: User, b: nat)
    | DoReject(user: User, b: nat)
    | DoCancel(user: User, b: nat)
    | DoReport(user: User, b: nat, now: int)
    | DoOpenIntent(user: User, b: nat)
    | DoUploadSlip(user: User, i: nat)
    | DoApproveSlip(i: nat, now: int)
    | DoRelease(b: nat, now: int)
    | DoConfirmGroup(i: nat, now: int)
    | DoFailGroup(b: nat, reason: RefundReason)
    | DoInitiate(user: User, b: nat, reasonLength: nat, now: int)
    | DoPropose(user: User, b: nat, start: int, minutes: nat, now: int)
    | DoConfirm(user: User, b: nat)
    | DoCancelPostpone(user: User, b: nat)
    | DoTimeout(r: nat, engaged: bool)
    | DoSetRules(t: nat, rules: seq<Rule>)

  ghost function Step(db: Db, e: Event): Result
    requires Refs(db)
  {
    match e
    case DoCreate(user, tutor, start, minutes, seats, now) => Create(db, user, tutor, start, minutes, seats, now)
    case DoAccept(user, b) => Accept(db, user, b)
    case DoReject(user, b) => RejectByTutor(db, user, b)
    case DoCancel(user, b) => CancelByStudent(db, user, b)
    case DoReport(user, b, now) => Report(db, user, b, now)
    case DoOpenIntent(user, b) => OpenIntent(db, user, b)
    case DoUploadSlip(user, i) => UploadSlip(db, user, i)
    case DoApproveSlip(i, now) => ApproveSlip(db, i, now)
    case DoRelease(b, now) => ReleaseForPayout(db, b, now)
    case DoConfirmGroup(i, now) => ConfirmGroup(db, i, now)
    case DoFailGroup(b, reason) => FailGroup(db, b, reason)
    case DoInitiate(user, b, reasonLength, now) => Initiate(db, user, b, reasonLength, now)
    case DoPropose(user, b, start, minutes, now) => Propose(db, user, b, start, minutes, now)
    case DoConfirm(user, b) => Confirm(db, user, b)
    case DoCancelPostpone(user, b) => CancelPostpone(db, user, b)
    case DoTimeout(r, engaged) => ResolveTimeout(db, r, engaged)
    case DoSetRules(t, rules) => SetRules(db, t, rules)
  }

  /** Two steps about slips do not look at the state they find. The run theorems are about runs in which
      what they find is safe; StepKeepsIff says that this is exactly what the invariant needs. */
  ghost predicate Orderly(db: Db, e: Event)
    requires Refs(db)
  {
    match e
    case DoApproveSlip(i, _) => i < |db.intents| ==> ReviewIsSafe(db, i)
    case DoUploadSlip(_, i) =>
      i < |db.intents| ==> !CountsOnEscrow(db, db.intents[i].booking) && RowsFor(db.ledger, i) == 0
    case _ => true
  }

  // ---- one step --------------------------------------------------------------------------------

  /** Steps that only rewrite the state of a booking, and of its intent. */
  predicate OnBooking(e: Event) {
    e.DoAccept? || e.DoReject? || e.DoCancel? || e.DoReport? || e.DoRelease?
  }

  lemma AnswerRestates(db: Db, user: User, b: nat)
    requires Inv(db)
    ensures Accept(db, user, b).Ok? ==> Restated(db, Accept(db, user, b).db, b)
    ensures RejectByTutor(db, user, b).Ok? ==> Restated(db, RejectByTutor(db, user, b).db, b)
    ensures CancelByStudent(db, user, b).Ok? ==> Restated(db, CancelByStudent(db, user, b).db, b)
  {
    assert b < |db.bookings| ==> BookingShape(db, b);
  }

  lemma ReportRestates(db: Db, user: User, b: nat, now: int)
    requires Inv(db) && Report(db, user, b, now).Ok?
    ensures Restated(db, Report(db, user, b, now).db, b)
  {
    assert BookingShape(db, b);
  }

  lemma ReleaseRestates(db: Db, b: nat, now: int)
    requires Inv(db) && ReleaseForPayout(db, b, now).Ok?
    ensures ReleaseForPayout(db, b, now).db == db || Restated(db, ReleaseForPayout(db, b, now).db, b)
  {
    if b < |db.bookings| {
      assert BookingShape(db, b);
    }
  }

  lemma OnBookingRestates(db: Db, e: Event)
    requires Inv(db) && Step(db, e).Ok? && OnBooking(e)
    ensures Step(db, e).db == db || Restated(db, Step(db, e).db, e.b)
  {
    match e
    case DoAccept(user, b) => AnswerRestates(db, user, b);
    case DoReject(user, b) => AnswerRestates(db, user, b);
    case DoCancel(user, b) => AnswerRestates(db, user, b);
    case DoReport(user, b, now) => ReportRestates(db, user, b, now);
    case DoRelease(b, now) => ReleaseRestates(db, b, now);
    case _ =>
  }

  lemma GroupConfirmationRestates(db: Db, i: nat, now: int)
    requires Inv(db) && ConfirmGroup(db, i, now).Ok?
    ensures Restated(db, ConfirmGroup(db, i, now).db, db.intents[i].booking)
  {
    assert IntentShape(db, i) && BookingShape(db, db.intents[i].booking);
  }

  lemma ConfirmKeeps(db: Db, user: User, b: nat)
    requires Inv(db) && Confirm(db, user, b).Ok?
    ensures OpenNegotiation(db, b) && db.requests[db.bookings[b].request.value].proposed.Some?
    ensures Confirm(db, user, b).db == Agree(db, b) && Inv(Agree(db, b))
  {
    NegotiationIsFunded(db, b);
    AgreeKeeps(db, b);
  }

  lemma CancelPostponeKeeps(db: Db, user: User, b: nat)
    requires Inv(db) && CancelPostpone(db, user, b).Ok?
    ensures OpenNegotiation(db, b)
    ensures var outcome := CancelOutcome(db.requests[db.bookings[b].request.value].role);
            CancelPostpone(db, user, b).db == Settle(db, b, outcome) && Inv(Settle(db, b, outcome))
  {
    NegotiationIsFunded(db, b);
    SettleKeeps(db, b, CancelOutcome(db.requests[db.bookings[b].request.value].role));
  }

  lemma TimeoutKeeps(db: Db, r: nat, engaged: bool)
    requires Inv(db) && ResolveTimeout(db, r, engaged).Ok?
    ensures if r < |db.requests| && db.requests[r].status == Negotiating
            then var b, outcome := db.requests[r].booking, TimeoutOutcome(db.requests[r].role, engaged);
                 && OpenNegotiation(db, b) && db.bookings[b].request == Some(r)
                 && ResolveTimeout(db, r, engaged).db == Settle(db, b, outcome)
                 && Inv(Settle(db, b, outcome))
            else ResolveTimeout(db, r, engaged).db == db
  {
    if r < |db.requests| && db.requests[r].status == Negotiating {
      assert RequestShape(db, r);
      NegotiationIsFunded(db, db.requests[r].booking);
      SettleKeeps(db, db.requests[r].booking, TimeoutOutcome(db.requests[r].role, engaged));
    }
  }

  lemma StepKeeps(db: Db, e: Event)
    requires Inv(db) && Orderly(db, e) && Step(db, e).Ok?
    ensures Inv(Step(db, e).db)
  {
    match e
    case DoCreate(user, tutor, start, minutes, seats, now) => CreateKeeps(db, user, tutor, start, minutes, seats, now);
    case DoOpenIntent(user, b) => OpenIntentKeeps(db, user, b);
    case DoUploadSlip(user, i) => UploadKeepsInvIff(db, user, i);
    case DoApproveSlip(i, now) => ReviewKeepsInvIff(db, i, now);
    case DoConfirmGroup(i, now) =>
      GroupConfirmationRestates(db, i, now);
      RestatedKeeps(db, ConfirmGroup(db, i, now).db, db.intents[i].booking);
    case DoFailGroup(b, reason) => FailGroupKeeps(db, b, reason);
    case DoInitiate(user, b, reasonLength, now) => InitiateKeeps(db, user, b, reasonLength, now);
    case DoPropose(user, b, start, minutes, now) => ProposeKeeps(db, user, b, start, minutes, now);
    case DoConfirm(user, b) => ConfirmKeeps(db, user, b);
    case DoCancelPostpone(user, b) => CancelPostponeKeeps(db, user, b);
    case DoTimeout(r, engaged) => TimeoutKeeps(db, r, engaged);
    case DoSetRules(t, rules) => SetRulesKeeps(db, t, rules);
    case _ =>
      OnBookingRestates(db, e);
      if Step(db, e).db != db { RestatedKeeps(db, Step(db, e).db, e.b); }
  }

  /** From a good state, an accepted step leads to a good state if and only if it is orderly. */
  lemma StepKeepsIff(db: Db, e: Event)
    requires Inv(db) && Step(db, e).Ok?
    ensures Inv(Step(db, e).db) <==> Orderly(db, e)
  {
    if Orderly(db, e) {
      StepKeeps(db, e);
    } else if e.DoApproveSlip? {
      ReviewKeepsInvIff(db, e.i, e.now);
    } else {
      UploadKeepsInvIff(db, e.user, e.i);
    }
  }

  // ---- runs ------------------------------------------------------------------------------------

  /** A refused event leaves the database as it was. */
  ghost predicate Moves(db: Db, e: Event, db': Db) {
    Refs(db) && if Step(db, e).Ok? then Orderly(db, e) && db' == Step(db, e).db else db' == db
  }

  /** `dbs` lists the states that the events pass through. */
  ghost predicate IsRun(dbs: seq<Db>, es: seq<Event>) {
    IsRunOf(Moves, dbs, es)
  }

  /** Every state of every run from a good state is good: nobody is double-booked, money is
      conserved, every paid class is backed by escrow and defects are counted exactly. */
  lemma RunKeepsInv(dbs: seq<Db>, es: seq<Event>, k: nat)
    requires IsRun(dbs, es) && Inv(dbs[0]) && k <= |es|
    ensures Inv(dbs[k])
  {
    assert Preserved(Moves, Inv) by {
      forall db, e, db' | Inv(db) && Moves(db, e, db') ensures Inv(db') {
        if Step(db, e).Ok? { StepKeeps(db, e); }
      }
    }
    HoldsAlong(Moves, Inv, dbs, es, 0, k);
  }

  /** The service before its first booking. */
  function Opening(zone: int, cuts: Cuts, tutors: seq<TutorProfile>): Db {
    Db(zone, cuts, tutors, [], [], [], [])
  }

  lemma OpeningInv(zone: int, cuts: Cuts, tutors: seq<TutorProfile>)
    requires ProfilesOk(tutors) && forall t :: 0 <= t < |tutors| ==> tutors[t].defectCount == 0
    ensures Inv(Opening(zone, cuts, tutors))
  {
    var db := Opening(zone, cuts, tutors);
    forall t | 0 <= t < |tutors| ensures Defects(db, t) == {} {}
  }

  // ---- what a run never takes back ---------------------------------------------------------------

  predicate BookingEvolves(k: Booking, k': Booking) {
    && k' == k.(status := k'.status, reportEnds := k'.reportEnds, phase := k'.phase,
                request := k'.request, intent := k'.intent, movedTo := k'.movedTo)
    && (k.request.Some? ==> k'.request == k.request)
    && (k.movedTo.Some? ==> k'.movedTo == k.movedTo)
    && (k.phase != Gathering ==> k'.phase == k.phase)
  }

  /** A request that left the negotiation is frozen; until then only its proposal can change. */
  predicate RequestEvolves(q: Request, q': Request) {
    && (q.status != Negotiating ==> q' == q)
    && q' == q.(status := q'.status, resolvedAs := q'.resolvedAs, proposed := q'.proposed)
  }

  /** Facts that later states keep: people, time and price of a booking, its postpone request and its
      clone once set, settled requests, closed groups, ledger rows. */
  ghost predicate Evolves(db: Db, db': Db) {
    && |db.bookings| <= |db'.bookings| && |db.requests| <= |db'.requests|
    && |db.intents| <= |db'.intents| && |db.tutors| == |db'.tutors|
    && db.ledger <= db'.ledger
    && (forall b :: 0 <= b < |db.bookings| ==> BookingEvolves(db.bookings[b], db'.bookings[b]))
    && (forall r :: 0 <= r < |db.requests| ==> RequestEvolves(db.requests[r], db'.requests[r]))
  }

  lemma AgreeEvolves(db: Db, b: nat)
    requires Inv(db) && OpenNegotiation(db, b)
    requires db.requests[db.bookings[b].request.value].proposed.Some?
    ensures Evolves(db, Agree(db, b))
  {
    assert BookingShape(db, b);
  }

  lemma SettleEvolves(db: Db, b: nat, outcome: Outcome)
    requires Inv(db) && OpenNegotiation(db, b)
    ensures Evolves(db, Settle(db, b, outcome))
  {
    assert BookingShape(db, b);
  }

  lemma CreateEvolves(db: Db, user: User, tutor: nat, start: int, minutes: nat, seats: Option<nat>, now: int)
    requires Inv(db) && Create(db, user, tutor, start, minutes, seats, now).Ok?
    ensures Evolves(db, Create(db, user, tutor, start, minutes, seats, now).db)
  {
  }

  lemma InitiateEvolves(db: Db, user: User, b: nat, reasonLength: nat, now: int)
    requires Inv(db) && Initiate(db, user, b, reasonLength, now).Ok?
    ensures Evolves(db, Initiate(db, user, b, reasonLength, now).db)
  {
  }

  lemma ProposeEvolves(db: Db, user: User, b: nat, start: int, minutes: nat, now: int)
    requires Inv(db) && Propose(db, user, b, start, minutes, now).Ok?
    ensures Evolves(db, Propose(db, user, b, start, minutes, now).db)
  {
    assert BookingShape(db, b);
  }

  lemma OpenIntentEvolves(db: Db, user: User, b: nat)
    requires Inv(db) && OpenIntent(db, user, b).Ok?
    ensures Evolves(db, OpenIntent(db, user, b).db)
  {
  }

  lemma FailGroupEvolves(db: Db, b: nat, reason: RefundReason)
    requires Inv(db) && FailGroup(db, b, reason).Ok?
    ensures Evolves(db, FailGroup(db, b, reason).db)
  {
  }

  lemma ApproveSlipEvolves(db: Db, i: nat, now: int)
    requires Inv(db) && ApproveSlip(db, i, now).Ok?
    ensures Evolves(db, ApproveSlip(db, i, now).db)
  {
  }

  lemma UploadEvolves(db: Db, user: User, i: nat)
    requires Inv(db) && UploadSlip(db, user, i).Ok?
    ensures Evolves(db, UploadSlip(db, user, i).db)
  {
  }

  lemma RulesEvolve(db: Db, t: nat, rules: seq<Rule>)
    requires Inv(db) && SetRules(db, t, rules).Ok?
    ensures Evolves(db, SetRules(db, t, rules).db)
  {
  }

  lemma RestatedEvolves(db: Db, db': Db, b: nat)
    requires Restated(db, db', b)
    ensures Evolves(db, db')
  {
  }

  lemma StepEvolves(db: Db, e: Event)
    requires Inv(db) && Step(db, e).Ok?
    ensures Evolves(db, Step(db, e).db)
  {
    if OnBooking(e) {
      OnBookingRestates(db, e);
      if Step(db, e).db != db { RestatedEvolves(db, Step(db, e).db, e.b); }
    } else {
      match e
      case DoConfirm(user, b) => ConfirmKeeps(db, user, b); AgreeEvolves(db, b);
      case DoCancelPostpone(user, b) =>
        CancelPostponeKeeps(db, user, b);
        SettleEvolves(db, b, CancelOutcome(db.requests[db.bookings[b].request.value].role));
      case DoTimeout(r, engaged) =>
        TimeoutKeeps(db, r, engaged);
        if r < |db.requests| && db.requests[r].status == Negotiating {
          SettleEvolves(db, db.requests[r].booking, TimeoutOutcome(db.requests[r].role, engaged));
        }
      case DoCreate(user, tutor, start, minutes, seats, now) =>
        CreateEvolves(db, user, tutor, start, minutes, seats, now);
      case DoInitiate(user, b, reasonLength, now) => InitiateEvolves(db, user, b, reasonLength, now);
      case DoPropose(user, b, start, minutes, now) => ProposeEvolves(db, user, b, start, minutes, now);
      case DoOpenIntent(user, b) => OpenIntentEvolves(db, user, b);
      case DoFailGroup(b, reason) => FailGroupEvolves(db, b, reason);
      case DoApproveSlip(i, now) => ApproveSlipEvolves(db, i, now);
      case DoConfirmGroup(i, now) =>
        GroupConfirmationRestates(db, i, now);
        RestatedEvolves(db, ConfirmGroup(db, i, now).db, db.intents[i].booking);
      case DoSetRules(t, rules) => RulesEvolve(db, t, rules);
      case DoUploadSlip(user, i) => UploadEvolves(db, user, i);
    }
  }

  lemma MovesEvolve()
    ensures Preserved(Moves, Inv) && StepRelates(Moves, Inv, Evolves) && ReflexiveTransitive(Inv, Evolves)
  {
    forall db, e, db' | Inv(db) && Moves(db, e, db') ensures Inv(db') && Evolves(db, db') {
      if Step(db, e).Ok? { StepKeeps(db, e); StepEvolves(db, e); }
    }
    forall a, b, c | Evolves(a, b) && Evolves(b, c) ensures Evolves(a, c) {}
  }

  lemma RunEvolves(dbs: seq<Db>, es: seq<Event>, j: nat, k: nat)
    requires IsRun(dbs, es) && Inv(dbs[0]) && j <= k <= |es|
    ensures Evolves(dbs[j], dbs[k])
  {
    RunKeepsInv(dbs, es, j);
    MovesEvolve();
    RelatesAlong(Moves, Inv, Evolves, dbs, es, j, k);
  }

  // ---- the dead stay dead --------------------------------------------------------------------------

  /** The review finds a one-on-one booking that holds no time of its own any more. */
  predicate Revives(db: Db, e: Event)
    requires Refs(db)
  {
    && e.DoApproveSlip? && e.i < |db.intents|
    && db.bookings[db.intents[e.i].booking].phase == OneOnOne
    && !Live(db.bookings[db.intents[e.i].booking].status)
  }

  ghost predicate Fades(db: Db, db': Db) {
    |db.bookings| <= |db'.bookings| && forall b :: 0 <= b < |db.bookings| && Live(db'.bookings[b].status) ==> Live(db.bookings[b].status)
  }

  lemma RestatedFades(db: Db, db': Db, b: nat)
    requires Restated(db, db', b)
    ensures Fades(db, db')
  {
  }

  lemma AgreementFades(db: Db, user: User, b: nat)
    requires Inv(db) && Confirm(db, user, b).Ok?
    ensures Fades(db, Confirm(db, user, b).db)
  {
    ConfirmKeeps(db, user, b);
    assert BookingShape(db, b);
  }

  lemma SettlementFades(db: Db, b: nat, outcome: Outcome)
    requires Inv(db) && OpenNegotiation(db, b)
    ensures Fades(db, Settle(db, b, outcome))
  {
  }

  lemma ReviewFades(db: Db, i: nat, now: int)
    requires Inv(db) && ApproveSlip(db, i, now).Ok? && !Revives(db, DoApproveSlip(i, now))
    ensures Fades(db, ApproveSlip(db, i, now).db)
  {
    assert BookingShape(db, db.intents[i].booking);
  }

  lemma FailureFades(db: Db, b: nat, reason: RefundReason)
    requires Inv(db) && FailGroup(db, b, reason).Ok?
    ensures Fades(db, FailGroup(db, b, reason).db)
  {
  }

  lemma StepFades(db: Db, e: Event)
    requires Inv(db) && Step(db, e).Ok? && !Revives(db, e)
    ensures Fades(db, Step(db, e).db)
  {
    if OnBooking(e) {
      OnBookingRestates(db, e);
      if Step(db, e).db != db { RestatedFades(db, Step(db, e).db, e.b); }
    } else {
      match e
      case DoApproveSlip(i, now) => ReviewFades(db, i, now);
      case DoConfirmGroup(i, now) =>
        GroupConfirmationRestates(db, i, now);
        RestatedFades(db, ConfirmGroup(db, i, now).db, db.intents[i].booking);
      case DoFailGroup(b, reason) => FailureFades(db, b, reason);
      case DoConfirm(user, b) => AgreementFades(db, user, b);
      case DoCancelPostpone(user, b) =>
        CancelPostponeKeeps(db, user, b);
        SettlementFades(db, b, CancelOutcome(db.requests[db.bookings[b].request.value].role));
      case DoTimeout(r, engaged) =>
        TimeoutKeeps(db, r, engaged);
        if r < |db.requests| && db.requests[r].status == Negotiating {
          SettlementFades(db, db.requests[r].booking, TimeoutOutcome(db.requests[r].role, engaged));
        }
      case DoInitiate(_, b, _, _) => assert BookingShape(db, b);
      case _ =>
    }
  }

  ghost predicate MovesWithoutRevival(db: Db, e: Event, db': Db) {
    Moves(db, e, db') && !Revives(db, e)
  }

  lemma MovesFade()
    ensures Preserved(MovesWithoutRevival, Inv) && StepRelates(MovesWithoutRevival, Inv, Fades)
    ensures ReflexiveTransitive(Inv, Fades)
  {
    forall db, e, db' | Inv(db) && MovesWithoutRevival(db, e, db') ensures Inv(db') && Fades(db, db') {
      if Step(db, e).Ok? { StepKeeps(db, e); StepFades(db, e); }
    }
  }

  /** A booking that was rejected, cancelled, moved or settled never holds its time again, unless a late
      review brings it back. */
  lemma RunNeverRevives(dbs: seq<Db>, es: seq<Event>, j: nat, k: nat, b: nat)
    requires IsRun(dbs, es) && Inv(dbs[0]) && j <= k <= |es| && b < |dbs[j].bookings|
    requires forall n :: 0 <= n < |es| ==> Refs(dbs[n]) && !Revives(dbs[n], es[n])
    ensures b < |dbs[k].bookings| && (Live(dbs[k].bookings[b].status) ==> Live(dbs[j].bookings[b].status))
  {
    RunKeepsInv(dbs, es, j);
    MovesFade();
    RelatesAlong(MovesWithoutRevival, Inv, Fades, dbs, es, j, k);
  }

  // ---- timers --------------------------------------------------------------------------------------

  /** A timer of an open request always resolves it; every firing after that changes nothing. */
  lemma TimerResolvesOnce(db: Db, r: nat, engaged: bool, again: bool)
    requires Inv(db) && r < |db.requests| && db.requests[r].status == Negotiating
    ensures ResolveTimeout(db, r, engaged).Ok?
    ensures var db' := ResolveTimeout(db, r, engaged).db;
            && Refs(db')
            && db'.requests[r].status == Expired
            && db'.requests[r].resolvedAs == Some(TimeoutOutcome(db.requests[r].role, engaged))
            && ResolveTimeout(db', r, again) == Ok(db')
  {
    assert RequestShape(db, r);
    NegotiationIsFunded(db, db.requests[r].booking);
    StepKeeps(db, DoTimeout(r, engaged));
  }
}
