/** The booking core as one database value and the atomic steps that change it.
    A table is a sequence: a row's identity is its position, inserting appends, nothing is deleted. */
module Bookings {
  import opened Basics
  import opened RefundPolicy
  import opened WeeklyRules

  type User = nat

  datatype BookingStatus =
    | Requested | Accepted | Rejected | Paid | Completed | Reported
    | Cancelled | CancelledByStudent | PostponePending | Postponed
    | CancelledNoAgreement | CancelledTutorUnresponsive | CancelledTutorInitiated

  /** What the booking row itself shows of a group class; seats live in GroupSessions. */
  datatype GroupPhase = OneOnOne | Gathering | GroupConfirmed | GroupFailed

  datatype IntentStatus =
    | PendingTransfer | SlipUploaded | Verifying | SlipFailed
    | HeldInEscrow | Disputed | ReleasedForPayout | Refunded

  datatype RequestStatus = Negotiating | Agreement | Expired

  datatype RefundReason =
    | PostponeNoAgreement | PostponeUnresponsive | PostponeTutorInitiated | AdminManual
    | GroupRejectedByTutor | GroupInviteExpired | GroupPaymentIncomplete

  datatype TutorProfile = TutorProfile(user: User, hourlyRate: nat, suspendedUntil: Option<int>,
                                       defectCount: nat, rules: seq<Rule>)

  /** `movedTo` is history that the database does not store: the clone a postponed booking became. */
  datatype Booking = Booking(student: User, tutor: nat, status: BookingStatus, start: int, minutes: int,
                             amount: nat, reportEnds: Option<int>, phase: GroupPhase,
                             request: Option<nat>, intent: Option<nat>, movedTo: Option<nat>)

  datatype Proposal = Proposal(start: int, minutes: int)

  datatype Request = Request(booking: nat, initiator: User, role: Role, shortNotice: bool,
                             status: RequestStatus, resolvedAs: Option<Outcome>, proposed: Option<Proposal>)

  datatype Intent = Intent(booking: nat, payer: User, amount: nat, status: IntentStatus)

  datatype LedgerRow = LedgerRow(intent: nat, booking: nat, original: int,
                                 student: int, tutor: int, platform: int, reason: RefundReason)

  datatype Db = Db(zone: int, cuts: Cuts, tutors: seq<TutorProfile>, bookings: seq<Booking>,
                   requests: seq<Request>, intents: seq<Intent>, ledger: seq<LedgerRow>)

  datatype ClashSource = ExistingBooking | PostponeProposal | TutorUnavailability

  datatype Refusal = NotFound | Forbidden | BadRequest | Conflict | Clash(source: ClashSource)

  datatype Result = Ok(db: Db) | Refused(why: Refusal)

  predicate BookingRefs(db: Db, k: Booking) {
    && k.tutor < |db.tutors|
    && (k.request.Some? ==> k.request.value < |db.requests|)
    && (k.intent.Some? ==> k.intent.value < |db.intents|)
  }

  /** Foreign keys that every step may rely on. */
  ghost predicate Refs(db: Db) {
    && (forall b :: 0 <= b < |db.bookings| ==> BookingRefs(db, db.bookings[b]))
    && (forall r :: 0 <= r < |db.requests| ==> db.requests[r].booking < |db.bookings|)
    && (forall i :: 0 <= i < |db.intents| ==> db.intents[i].booking < |db.bookings|)
  }

  // ---- the overlap guard ----------------------------------------------------------------

  /** Statuses that hold a class time. */
  predicate Live(s: BookingStatus) {
    s == Requested || s == Accepted || s == Paid || s == PostponePending
  }

  /** Statuses the guard and the busy list count: the live ones and postponed originals. */
  predicate Active(s: BookingStatus) {
    Live(s) || s == Postponed
  }

  function OwnSlot(k: Booking): Span {
    Lesson(k.start, k.minutes)
  }

  /** The booking is on the user's calendar, as its student or through its tutor. */
  predicate Involves(db: Db, b: nat, u: User)
    requires b < |db.bookings| && BookingRefs(db, db.bookings[b])
  {
    db.bookings[b].student == u || db.tutors[db.bookings[b].tutor].user == u
  }

  /** The slot that the booking's open negotiation asks for, if there is one. */
  function ProposedSlot(db: Db, b: nat): Option<Span>
    requires b < |db.bookings| && BookingRefs(db, db.bookings[b])
  {
    var k := db.bookings[b];
    if k.request.None? then None
    else
      var q := db.requests[k.request.value];
      if q.status == Negotiating && q.proposed.Some?
      then Some(Lesson(q.proposed.value.start, q.proposed.value.minutes))
      else None
  }

  ghost predicate BookingHit(db: Db, u: User, span: Span, exclude: Option<nat>)
    requires Refs(db)
  {
    exists b :: 0 <= b < |db.bookings| && Some(b) != exclude && Involves(db, b, u)
                && Active(db.bookings[b].status) && Overlap(OwnSlot(db.bookings[b]), span)
  }

  ghost predicate ProposalHit(db: Db, u: User, span: Span, exclude: Option<nat>)
    requires Refs(db)
  {
    exists b :: 0 <= b < |db.bookings| && Some(b) != exclude && Involves(db, b, u)
                && ProposedSlot(db, b).Some? && Overlap(ProposedSlot(db, b).value, span)
  }

  ghost predicate RuleHit(db: Db, u: User, span: Span) {
    exists t :: 0 <= t < |db.tutors| && db.tutors[t].user == u && Blocked(db.zone, db.tutors[t].rules, span)
  }

  /** The first reason, if any, why the user cannot take the span. */
  ghost function Guard(db: Db, u: User, span: Span, exclude: Option<nat>): Option<ClashSource>
    requires Refs(db)
  {
    if BookingHit(db, u, span, exclude) then Some(ExistingBooking)
    else if ProposalHit(db, u, span, exclude) then Some(PostponeProposal)
    else if RuleHit(db, u, span) then Some(TutorUnavailability)
    else None
  }

  /** Student first, then the tutor's user. */
  ghost function GuardBoth(db: Db, student: User, tutorUser: User, span: Span, exclude: Option<nat>): Option<ClashSource>
    requires Refs(db)
  {
    var first := Guard(db, student, span, exclude);
    if first.Some? then first else Guard(db, tutorUser, span, exclude)
  }

  // ---- BookingsService --------------------------------------------------------------------

  /** The class total: rate times hours times seats, rounded to the nearest baht. */
  function ClassTotal(hourlyRate: nat, minutes: nat, seats: nat): nat {
    (2 * hourlyRate * minutes * seats + 60) / 120
  }

  lemma ClassTotalIsRounded(hourlyRate: nat, minutes: nat, seats: nat)
    ensures ClassTotal(hourlyRate, minutes, seats)
            == Round(hourlyRate as real * (minutes as real / 60.0) * seats as real)
  {
    var total := ClassTotal(hourlyRate, minutes, seats);
    RoundIs((hourlyRate * minutes * seats) as real / 60.0, total);
  }

  /** `seats` is absent for a one-on-one class. */
  function NewBooking(db: Db, user: User, tutor: nat, start: int, minutes: nat, seats: Option<nat>): Booking
    requires tutor < |db.tutors|
  {
    Booking(user, tutor, Requested, start, minutes,
            ClassTotal(db.tutors[tutor].hourlyRate, minutes, if seats.Some? then seats.value else 1),
            None, if seats.Some? then Gathering else OneOnOne, None, None, None)
  }

  /** Everything `create` checks before it opens its transaction. */
  function CreateRefusal(db: Db, user: User, tutor: nat, start: int, minutes: nat,
                         seats: Option<nat>, now: int): Option<Refusal>
  {
    if minutes !in {60, 90, 120} then Some(BadRequest)
    else if tutor >= |db.tutors| then Some(NotFound)
    else if db.tutors[tutor].user == user then Some(Forbidden)
    else if db.tutors[tutor].suspendedUntil.Some? && db.tutors[tutor].suspendedUntil.value > now then Some(Forbidden)
    else if start < now then Some(BadRequest)
    else if seats.Some? && !(2 <= seats.value <= 10) then Some(BadRequest)
    else if seats.Some? && start < StartOfTomorrow(now) then Some(BadRequest)
    else None
  }

  ghost function Create(db: Db, user: User, tutor: nat, start: int, minutes: nat,
                        seats: Option<nat>, now: int): Result
    requires Refs(db)
  {
    var refusal := CreateRefusal(db, user, tutor, start, minutes, seats, now);
    if refusal.Some? then Refused(refusal.value)
    else
      var clash := GuardBoth(db, user, db.tutors[tutor].user, Lesson(start, minutes), None);
      if clash.Some? then Refused(Clash(clash.value))
      else Ok(db.(bookings := db.bookings + [NewBooking(db, user, tutor, start, minutes, seats)]))
  }

  /** One booking row rewritten. */
  function Rewrite(db: Db, b: nat, k: Booking): Db
    requires b < |db.bookings|
  {
    db.(bookings := db.bookings[b := k])
  }

  function Accept(db: Db, user: User, b: nat): Result
    requires Refs(db)
  {
    if b >= |db.bookings| then Refused(NotFound)
    else
      var k := db.bookings[b];
      if db.tutors[k.tutor].user != user then Refused(Forbidden)
      else if k.status != Requested then Refused(BadRequest)
      else if k.phase != OneOnOne then Refused(BadRequest)
      else Ok(Rewrite(db, b, k.(status := Accepted)))
  }

  function RejectByTutor(db: Db, user: User, b: nat): Result
    requires Refs(db)
  {
    if b >= |db.bookings| then Refused(NotFound)
    else
      var k := db.bookings[b];
      if db.tutors[k.tutor].user != user then Refused(Forbidden)
      else if k.phase != OneOnOne then Refused(BadRequest)
      else if k.status != Requested then Refused(BadRequest)
      else Ok(Rewrite(db, b, k.(status := Rejected)))
  }

  function CancelByStudent(db: Db, user: User, b: nat): Result
    requires Refs(db)
  {
    if b >= |db.bookings| then Refused(NotFound)
    else
      var k := db.bookings[b];
      if k.student != user then Refused(Forbidden)
      else if k.phase != OneOnOne then Refused(BadRequest)
      else if k.status != Requested && k.status != Accepted then Refused(BadRequest)
      else Ok(Rewrite(db, b, k.(status := CancelledByStudent)))
  }

  /** The student's report: freezes escrow that is still held and takes the booking out of play. */
  function Report(db: Db, user: User, b: nat, now: int): Result
    requires Refs(db)
  {
    if b >= |db.bookings| then Refused(NotFound)
    else
      var k := db.bookings[b];
      if k.student != user then Refused(Forbidden)
      else if k.reportEnds.None? || k.reportEnds.value < now then Refused(BadRequest)
      else
        var frozen :=
          if k.intent.Some? && db.intents[k.intent.value].status == HeldInEscrow
          then db.intents[k.intent.value := db.intents[k.intent.value].(status := Disputed)]
          else db.intents;
        Ok(db.(intents := frozen, bookings := db.bookings[b := k.(status := BookingStatus.Reported)]))
  }

  // ---- payments ---------------------------------------------------------------------------

  function OpenIntent(db: Db, user: User, b: nat): Result
    requires Refs(db)
  {
    if b >= |db.bookings| then Refused(NotFound)
    else
      var k := db.bookings[b];
      if k.student != user then Refused(Forbidden)
      else if k.phase == OneOnOne && k.status != Accepted then Refused(BadRequest)
      else if k.phase != OneOnOne && k.phase != Gathering then Refused(BadRequest)
      else if k.intent.Some? then Ok(db)
      else Ok(db.(intents := db.intents + [Intent(b, user, k.amount, PendingTransfer)],
                  bookings := db.bookings[b := k.(intent := Some(|db.intents|))]))
  }

  /** States in which the service signs an upload address for a (new) slip. */
  predicate AwaitsSlip(s: IntentStatus) {
    s == PendingTransfer || s == SlipUploaded || s == Verifying || s == SlipFailed
  }

  /** Registering the uploaded slip does not look at the intent's state again. */
  function UploadSlip(db: Db, user: User, i: nat): Result {
    if i >= |db.intents| then Refused(NotFound)
    else if db.intents[i].payer != user then Refused(Forbidden)
    else Ok(db.(intents := db.intents[i := db.intents[i].(status := SlipUploaded)]))
  }

  predicate AwaitsReview(s: IntentStatus) {
    s == SlipUploaded || s == Verifying || s == SlipFailed
  }

  /** A slip counts as paid: the escrow is held and a one-on-one booking becomes paid, whatever its
      status was. A group booking's row is left to the group lifecycle. */
  function Cleared(db: Db, i: nat, now: int): Db
    requires Refs(db) && i < |db.intents|
  {
    var b := db.intents[i].booking;
    var k := db.bookings[b];
    db.(intents := db.intents[i := db.intents[i].(status := HeldInEscrow)],
        bookings := if k.phase == OneOnOne
                    then db.bookings[b := k.(status := Paid, reportEnds := Some(now + DAY))]
                    else db.bookings)
  }

  /** The administrator's approval of a slip. */
  function ApproveSlip(db: Db, i: nat, now: int): Result
    requires Refs(db)
  {
    if i >= |db.intents| then Refused(NotFound)
    else if !AwaitsReview(db.intents[i].status) then Refused(BadRequest)
    else Ok(Cleared(db, i, now))
  }

  /** The daily job, one booking at a time: a class whose report window closed is completed. */
  function ReleaseForPayout(db: Db, b: nat, now: int): Result
    requires Refs(db)
  {
    if b >= |db.bookings| then Refused(NotFound)
    else
      var k := db.bookings[b];
      if k.status == Paid && k.reportEnds.Some? && k.reportEnds.value <= now
         && k.intent.Some? && db.intents[k.intent.value].status == HeldInEscrow
      then Ok(db.(intents := db.intents[k.intent.value := db.intents[k.intent.value].(status := ReleasedForPayout)],
                  bookings := db.bookings[b := k.(status := Completed)]))
      else Ok(db)
  }

  // ---- group classes, as the booking row sees them ------------------------------------------

  /** The group lifecycle confirms the class whose host's intent has cleared. */
  function ConfirmGroup(db: Db, i: nat, now: int): Result
    requires Refs(db)
  {
    if i >= |db.intents| then Refused(NotFound)
    else
      var b := db.intents[i].booking;
      var k := db.bookings[b];
      if k.phase != Gathering || db.intents[i].status != HeldInEscrow then Refused(BadRequest)
      else Ok(Rewrite(db, b, k.(phase := GroupConfirmed, status := Paid, reportEnds := Some(now + DAY))))
  }

  /** The intent after its group failed. */
  function FailedIntent(x: Intent): Intent {
    if x.status == HeldInEscrow then x.(status := Refunded, amount := 0)
    else if x.status == PendingTransfer || x.status == SlipUploaded || x.status == Verifying
    then x.(status := SlipFailed)
    else x
  }

  /** Full refund to the host if the escrow was held, and the class is cancelled. */
  function FailGroup(db: Db, b: nat, reason: RefundReason): Result
    requires Refs(db)
  {
    if b >= |db.bookings| then Refused(NotFound)
    else
      var k := db.bookings[b];
      if k.phase != Gathering then Refused(BadRequest)
      else
        var closed := db.(bookings := db.bookings[b := k.(phase := GroupFailed, status := Cancelled)]);
        if k.intent.None? then Ok(closed)
        else
          var i := k.intent.value;
          var x := db.intents[i];
          Ok(closed.(intents := db.intents[i := FailedIntent(x)],
                     ledger := if x.status == HeldInEscrow
                               then db.ledger + [LedgerRow(i, b, x.amount, x.amount, 0, 0, reason)]
                               else db.ledger))
  }

  // ---- PostponeService ------------------------------------------------------------------------

  predicate Participant(db: Db, b: nat, user: User)
    requires b < |db.bookings| && BookingRefs(db, db.bookings[b])
  {
    db.bookings[b].student == user || db.tutors[db.bookings[b].tutor].user == user
  }

  function Initiate(db: Db, user: User, b: nat, reasonLength: nat, now: int): Result
    requires Refs(db)
  {
    if !(5 <= reasonLength <= 500) then Refused(BadRequest)
    else if b >= |db.bookings| then Refused(NotFound)
    else if !Participant(db, b, user) then Refused(Forbidden)
    else
      var k := db.bookings[b];
      if k.status != Paid then Refused(BadRequest)
      else if k.start <= now then Refused(BadRequest)
      else if k.request.Some? then Refused(BadRequest)
      else
        var role := if k.student == user then Student else Tutor;
        Ok(db.(requests := db.requests + [Request(b, user, role, k.start - now < 12 * HOUR, Negotiating, None, None)],
               bookings := db.bookings[b := k.(status := PostponePending, request := Some(|db.requests|))]))
  }

  /** Loading the booking's open request, as propose, confirm and cancel all begin. */
  function LoadRefusal(db: Db, user: User, b: nat): Option<Refusal>
    requires Refs(db)
  {
    if b >= |db.bookings| then Some(NotFound)
    else if !Participant(db, b, user) then Some(Forbidden)
    else if db.bookings[b].request.None? then Some(BadRequest)
    else if db.requests[db.bookings[b].request.value].status != Negotiating then Some(BadRequest)
    else None
  }

  ghost function Propose(db: Db, user: User, b: nat, start: int, minutes: nat, now: int): Result
    requires Refs(db)
  {
    if minutes !in {30, 60, 90, 120} then Refused(BadRequest)
    else if start < StartOfTomorrow(now) then Refused(BadRequest)
    else
      var refusal := LoadRefusal(db, user, b);
      if refusal.Some? then Refused(refusal.value)
      else
        var k := db.bookings[b];
        var r := k.request.value;
        if db.requests[r].initiator != user then Refused(Forbidden)
        else
          var clash := GuardBoth(db, k.student, db.tutors[k.tutor].user, Lesson(start, minutes), Some(b));
          if clash.Some? then Refused(Clash(clash.value))
          else Ok(db.(requests := db.requests[r := db.requests[r].(proposed := Some(Proposal(start, minutes)))]))
  }

  /** The paid booking that replaces `k` at the agreed time. */
  function Clone(k: Booking, p: Proposal): Booking {
    Booking(k.student, k.tutor, Paid, p.start, p.minutes, k.amount, None, OneOnOne, None, k.intent, None)
  }

  /** The four writes of the agreement: request closed, clone inserted, intent moved, original kept
      as postponed. */
  function Agree(db: Db, b: nat): Db
    requires Refs(db) && b < |db.bookings| && db.bookings[b].request.Some? && db.bookings[b].intent.Some?
    requires db.requests[db.bookings[b].request.value].proposed.Some?
  {
    var k := db.bookings[b];
    var r, i, c := k.request.value, k.intent.value, |db.bookings|;
    var q := db.requests[r];
    db.(requests := db.requests[r := q.(status := Agreement, resolvedAs := Some(Outcome.Agreed))],
        intents := db.intents[i := db.intents[i].(booking := c)],
        bookings := db.bookings[b := k.(status := Postponed, intent := None, movedTo := Some(c))]
                    + [Clone(k, q.proposed.value)])
  }

  ghost function Confirm(db: Db, user: User, b: nat): Result
    requires Refs(db)
  {
    var refusal := LoadRefusal(db, user, b);
    if refusal.Some? then Refused(refusal.value)
    else
      var k := db.bookings[b];
      var q := db.requests[k.request.value];
      if q.proposed.None? then Refused(BadRequest)
      else if q.initiator == user then Refused(Forbidden)
      else
        var clash := GuardBoth(db, k.student, db.tutors[k.tutor].user,
                               Lesson(q.proposed.value.start, q.proposed.value.minutes), Some(b));
        if clash.Some? then Refused(Clash(clash.value))
        else if k.intent.None? then Refused(BadRequest)
        else Ok(Agree(db, b))
  }

  function CancelledStatus(outcome: Outcome): BookingStatus {
    match outcome
    case Unresponsive => CancelledTutorUnresponsive
    case TutorInitiatedNoAgreement => CancelledTutorInitiated
    case _ => CancelledNoAgreement
  }

  function ReasonCode(outcome: Outcome): RefundReason {
    match outcome
    case Unresponsive => PostponeUnresponsive
    case TutorInitiatedNoAgreement => PostponeTutorInitiated
    case _ => PostponeNoAgreement
  }

  /** Outcomes that count against the tutor. */
  predicate IsDefect(outcome: Outcome) {
    outcome == Unresponsive || outcome == TutorInitiatedNoAgreement
  }

  /** The intent after the split: what is left on it is the tutor's part. */
  function SettledIntent(x: Intent, s: Split): Intent {
    if s.tutor > 0 then x.(amount := s.tutor, status := ReleasedForPayout)
    else x.(amount := 0, status := Refunded)
  }

  /** The five writes of a negotiation that ended without a new slot. */
  function Settle(db: Db, b: nat, outcome: Outcome): Db
    requires Refs(db) && b < |db.bookings| && db.bookings[b].request.Some? && db.bookings[b].intent.Some?
  {
    var k := db.bookings[b];
    var r, i := k.request.value, k.intent.value;
    var q, x, t := db.requests[r], db.intents[i], db.tutors[k.tutor];
    var s := ComputeSplit(db.cuts, q.role, q.shortNotice, outcome, x.amount);
    db.(intents := db.intents[i := SettledIntent(x, s)],
        ledger := db.ledger + [LedgerRow(i, b, x.amount, s.student, s.tutor, s.platform, ReasonCode(outcome))],
        bookings := db.bookings[b := k.(status := CancelledStatus(outcome))],
        requests := db.requests[r := q.(status := Expired, resolvedAs := Some(outcome))],
        tutors := if IsDefect(outcome)
                  then db.tutors[k.tutor := t.(defectCount := t.defectCount + 1)]
                  else db.tutors)
  }

  function CancelOutcome(role: Role): Outcome {
    if role == Tutor then TutorInitiatedNoAgreement else NoAgreement
  }

  function CancelPostpone(db: Db, user: User, b: nat): Result
    requires Refs(db)
  {
    var refusal := LoadRefusal(db, user, b);
    if refusal.Some? then Refused(refusal.value)
    else if db.bookings[b].intent.None? then Refused(BadRequest)
    else
      Ok(Settle(db, b, CancelOutcome(db.requests[db.bookings[b].request.value].role)))
  }

  function TimeoutOutcome(role: Role, engaged: bool): Outcome {
    if engaged then NoAgreement
    else if role == Student then Unresponsive
    else TutorInitiatedNoAgreement
  }

  /** The timer of request `r` fires; `engaged` says whether the other side wrote in the chat. */
  function ResolveTimeout(db: Db, r: nat, engaged: bool): Result
    requires Refs(db)
  {
    if r >= |db.requests| || db.requests[r].status != Negotiating then Ok(db)
    else
      var b := db.requests[r].booking;
      if db.bookings[b].request != Some(r) then Ok(db)
      else if db.bookings[b].intent.None? then Refused(BadRequest)
      else Ok(Settle(db, b, TimeoutOutcome(db.requests[r].role, engaged)))
  }

  // ---- the tutor's own rules ---------------------------------------------------------------

  function SetRules(db: Db, t: nat, rules: seq<Rule>): Result {
    if t >= |db.tutors| then Refused(NotFound)
    else if !ValidRules(rules) then Refused(BadRequest)
    else Ok(db.(tutors := db.tutors[t := db.tutors[t].(rules := rules)]))
  }
}
