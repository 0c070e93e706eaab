/** One group class from its first invitation to its confirmation or failure: seats, approval, the
    host's payment and the refund. Groups meet only on calendars, so a run follows a single one. */
module GroupSessions {
  import opened Basics
  import opened RefundPolicy
  import opened Runs
  import opened Bookings

  datatype SeatRole = Host | Invitee

  datatype SeatStatus = Invited | Seated | Declined | HostPaid | SeatExpired

  datatype Seat = Seat(student: User, role: SeatRole, status: SeatStatus, acceptedAt: Option<int>)

  datatype Phase = Forming | TutorReview | Confirmed | Failed

  /** `booked` is the status of the booking row; the host's intent is known by the booking's number. */
  datatype Group = Group(id: nat, host: User, tutorUser: User, price: nat, capacity: nat, start: int,
                         booked: BookingStatus, phase: Phase, approvedAt: Option<int>, expiresAt: Option<int>,
                         seats: seq<Seat>, intent: Option<Intent>)

  /** A group and the ledger rows written for it. */
  datatype Room = Room(g: Group, ledger: seq<LedgerRow>)

  datatype RoomResult = RoomOk(room: Room) | RoomRefused(why: Refusal)

  // ---- the opening ---------------------------------------------------------------------------------

  /** When invitations end: a day before class, or an hour before if that day has passed. */
  function ClampInviteExpiry(start: int, now: int): int {
    if start - 24 * HOUR > now then start - 24 * HOUR else start - HOUR
  }

  /** The chosen end is in the future exactly when the class is more than an hour away. */
  lemma InviteBornOpenIff(start: int, now: int)
    ensures ClampInviteExpiry(start, now) > now <==> start - HOUR > now
    ensures ClampInviteExpiry(start, now) <= start - HOUR
  {
  }

  /** Among the starts that `create` admits for a group, one can leave the invitations over at once only in
      the last hour of a Bangkok day ... */
  lemma BornOverOnlyBeforeMidnight(start: int, now: int)
    requires start >= StartOfTomorrow(now) && ClampInviteExpiry(start, now) <= now
    ensures StartOfTomorrow(now) - HOUR <= now < StartOfTomorrow(now)
  {
  }

  /** ... and in that hour, at any instant of it, one does. */
  lemma BornOverBeforeMidnight(now: int)
    requires StartOfTomorrow(now) - HOUR <= now
    ensures ClampInviteExpiry(StartOfTomorrow(now), now) <= now
    ensures CreateRefusal(Db(0, Percentages(50.0, 10.0), [TutorProfile(100, 300, None, 0, [])], [], [], [], []),
                          1, 0, StartOfTomorrow(now), 60, Some(2), now).None?
  {
  }

  /** As `create` leaves a group booking. */
  function Gathered(id: nat, host: User, tutorUser: User, price: nat, capacity: nat, start: int, now: int): Room {
    Room(Group(id, host, tutorUser, price, capacity, start, Requested, Forming, None,
               Some(ClampInviteExpiry(start, now)), [Seat(host, Host, Seated, Some(now))], None), [])
  }

  // ---- seats -------------------------------------------------------------------------------------------

  predicate Taken(s: Seat) {
    s.status == Seated || s.status == HostPaid
  }

  /** Every seat of the class exists and has been accepted. */
  predicate ShouldMoveToTutorReview(seats: seq<Seat>, capacity: nat) {
    |seats| >= capacity && forall n :: 0 <= n < |seats| ==> Taken(seats[n])
  }

  predicate Seats(seats: seq<Seat>, user: User) {
    exists n :: 0 <= n < |seats| && seats[n].student == user
  }

  function SeatOf(seats: seq<Seat>, user: User): (n: nat)
    requires Seats(seats, user)
    ensures n < |seats| && seats[n].student == user
    decreases |seats|
  {
    if seats[0].student == user then 0 else
      assert exists n :: 1 <= n < |seats| && seats[n].student == user;
      assert Seats(seats[1..], user) by {
        var n :| 1 <= n < |seats| && seats[n].student == user;
        assert seats[1..][n - 1].student == user;
      }
      1 + SeatOf(seats[1..], user)
  }

  /** Seats for the invited users, skipping users who have one. */
  function AddSeats(seats: seq<Seat>, users: seq<User>): seq<Seat> {
    if users == [] then seats
    else
      var before := AddSeats(seats, users[..|users| - 1]);
      var user := users[|users| - 1];
      if Seats(before, user) then before else before + [Seat(user, Invitee, Invited, None)]
  }

  // ---- the steps -----------------------------------------------------------------------------------------

  /** `users` are the accounts found for the cleaned addresses, `unknown` the addresses without one. */
  function Invite(r: Room, user: User, users: seq<User>, unknown: nat, anySuspended: bool): RoomResult {
    var g := r.g;
    if g.host != user then RoomRefused(Forbidden)
    else if g.phase != Forming then RoomRefused(BadRequest)
    else if |g.seats| + |users| + unknown > g.capacity then RoomRefused(BadRequest)
    else if unknown > 0 then RoomRefused(BadRequest)
    else if anySuspended then RoomRefused(BadRequest)
    else RoomOk(r.(g := g.(seats := AddSeats(g.seats, users))))
  }

  /** `free` is the guard's answer for the invitee's own calendar. */
  function AcceptInvite(r: Room, user: User, now: int, free: bool): RoomResult {
    var g := r.g;
    if g.phase != Forming then RoomRefused(BadRequest)
    else if g.expiresAt.Some? && g.expiresAt.value < now then RoomRefused(BadRequest)
    else if !Seats(g.seats, user) then RoomRefused(Forbidden)
    else
      var n := SeatOf(g.seats, user);
      if Taken(g.seats[n]) then RoomOk(r)
      else if g.seats[n].status == Declined || g.seats[n].status == SeatExpired then RoomRefused(Conflict)
      else if !free then RoomRefused(Clash(ExistingBooking))
      else
        var seats := g.seats[n := g.seats[n].(status := Seated, acceptedAt := Some(now))];
        var phase := if ShouldMoveToTutorReview(seats, g.capacity) then TutorReview else g.phase;
        RoomOk(r.(g := g.(seats := seats, phase := phase)))
  }

  function DeclineInvite(r: Room, user: User): RoomResult {
    var g := r.g;
    if g.phase != Forming then RoomRefused(BadRequest)
    else if !Seats(g.seats, user) then RoomRefused(Forbidden)
    else
      var n := SeatOf(g.seats, user);
      if g.seats[n].role == Host then RoomRefused(BadRequest)
      else if g.seats[n].status == Declined then RoomOk(r)
      else if g.seats[n].status == HostPaid then RoomRefused(Conflict)
      else RoomOk(r.(g := g.(seats := g.seats[n := g.seats[n].(status := Declined)])))
  }

  function ApproveGroup(r: Room, user: User, now: int): RoomResult {
    var g := r.g;
    if g.tutorUser != user then RoomRefused(Forbidden)
    else if g.phase != TutorReview then RoomRefused(BadRequest)
    else RoomOk(if g.approvedAt.Some? then r else r.(g := g.(approvedAt := Some(now))))
  }

  /** The refund row of a failing group: only if the host's money is held. */
  function FailureRows(g: Group, reason: RefundReason): seq<LedgerRow> {
    if g.intent.Some? && g.intent.value.status == HeldInEscrow
    then [LedgerRow(g.id, g.id, g.intent.value.amount, g.intent.value.amount, 0, 0, reason)]
    else []
  }

  function FailedGroup(g: Group): Group {
    if g.phase == Failed then g
    else
      g.(phase := Failed, booked := Cancelled,
         intent := if g.intent.Some? then Some(FailedIntent(g.intent.value)) else None)
  }

  function Fail(r: Room, reason: RefundReason): Room {
    if r.g.phase == Failed then r
    else Room(FailedGroup(r.g), r.ledger + FailureRows(r.g, reason))
  }

  function RejectGroup(r: Room, user: User): RoomResult {
    if r.g.tutorUser != user then RoomRefused(Forbidden)
    else if r.g.phase != TutorReview then RoomRefused(BadRequest)
    else RoomOk(Fail(r, GroupRejectedByTutor))
  }

  function OpenHostIntent(r: Room, user: User): RoomResult {
    var g := r.g;
    if g.host != user then RoomRefused(Forbidden)
    else if g.phase != Forming && g.phase != TutorReview then RoomRefused(BadRequest)
    else if g.intent.Some? then RoomOk(r)
    else RoomOk(r.(g := g.(intent := Some(Intent(g.id, user, g.price, PendingTransfer)))))
  }

  function UploadHostSlip(r: Room, user: User): RoomResult {
    var g := r.g;
    if g.intent.None? then RoomRefused(NotFound)
    else if g.intent.value.payer != user then RoomRefused(Forbidden)
    else RoomOk(r.(g := g.(intent := Some(g.intent.value.(status := SlipUploaded)))))
  }

  /** The seat that the payment belongs to, marked paid. */
  function MarkHostPaid(seats: seq<Seat>, payer: User): seq<Seat> {
    if |seats| > 0 && seats[0].role == Host && seats[0].student == payer && seats[0].status != HostPaid
    then seats[0 := seats[0].(status := HostPaid)]
    else seats
  }

  /** The host's slip clears: the money is held, the host's seat is paid, and a class that its tutor
      has already approved is confirmed in the same call. */
  function SlipCleared(r: Room): RoomResult {
    var g := r.g;
    if g.intent.None? then RoomRefused(NotFound)
    else if !AwaitsReview(g.intent.value.status) then RoomRefused(BadRequest)
    else
      var paid := g.(intent := Some(g.intent.value.(status := HeldInEscrow)),
                     seats := MarkHostPaid(g.seats, g.intent.value.payer));
      if g.phase == TutorReview && g.approvedAt.Some?
      then RoomOk(r.(g := paid.(phase := Confirmed, booked := Paid)))
      else RoomOk(r.(g := paid))
  }

  function ExtendInvite(r: Room, user: User): RoomResult {
    var g := r.g;
    if g.host != user then RoomRefused(Forbidden)
    else if g.phase != Forming then RoomRefused(BadRequest)
    else if g.expiresAt.None? then RoomRefused(BadRequest)
    else
      var ceiling, wanted := g.start - HOUR, g.expiresAt.value + 24 * HOUR;
      var next := if wanted > ceiling then ceiling else wanted;
      if next <= g.expiresAt.value then RoomRefused(BadRequest)
      else RoomOk(r.(g := g.(expiresAt := Some(next))))
  }

  /** Forming, and the invitations have ended. */
  predicate InviteExpired(g: Group, now: int) {
    g.phase == Forming && g.expiresAt.Some? && g.expiresAt.value < now
  }

  /** In review, and no invitee's answer is younger than a day. */
  predicate ReviewOverdue(g: Group, now: int) {
    g.phase == TutorReview
    && forall n :: 0 <= n < |g.seats| ==>
         || g.seats[n].role == Host
         || (g.seats[n].acceptedAt.Some? && g.seats[n].acceptedAt.value < now - 24 * HOUR)
         || g.seats[n].status == Declined
         || g.seats[n].status == SeatExpired
  }

  datatype GroupEvent =
    | OnInvite(user: User, users: seq<User>, unknown: nat, anySuspended: bool)
    | OnAccept(user: User, now: int, free: bool)
    | OnDecline(user: User)
    | OnApprove(user: User, now: int)
    | OnReject(user: User)
    | OnOpenIntent(user: User)
    | OnUploadSlip(user: User)
    | OnSlipCleared
    | OnExtend(user: User)
    | OnInviteSweep(now: int)
    | OnReviewSweep(now: int)

  function GroupStep(r: Room, e: GroupEvent): RoomResult {
    match e
    case OnInvite(user, users, unknown, anySuspended) => Invite(r, user, users, unknown, anySuspended)
    case OnAccept(user, now, free) => AcceptInvite(r, user, now, free)
    case OnDecline(user) => DeclineInvite(r, user)
    case OnApprove(user, now) => ApproveGroup(r, user, now)
    case OnReject(user) => RejectGroup(r, user)
    case OnOpenIntent(user) => OpenHostIntent(r, user)
    case OnUploadSlip(user) => UploadHostSlip(r, user)
    case OnSlipCleared => SlipCleared(r)
    case OnExtend(user) => ExtendInvite(r, user)
    case OnInviteSweep(now) => RoomOk(if InviteExpired(r.g, now) then Fail(r, GroupInviteExpired) else r)
    case OnReviewSweep(now) => RoomOk(if ReviewOverdue(r.g, now) then Fail(r, GroupPaymentIncomplete) else r)
  }

  // ---- what every step keeps -------------------------------------------------------------------------------

  predicate OneSeatEach(seats: seq<Seat>) {
    forall m, n :: 0 <= m < n < |seats| ==> seats[m].student != seats[n].student
  }

  predicate SeatsInv(g: Group) {
    && 1 <= |g.seats| <= g.capacity && 2 <= g.capacity
    && g.seats[0].student == g.host && g.seats[0].role == Host && Taken(g.seats[0])
    && (forall n :: 1 <= n < |g.seats| ==>
          g.seats[n].role == Invitee && g.seats[n].status in {Invited, Seated, Declined})
    && (forall n :: 0 <= n < |g.seats| && Taken(g.seats[n]) ==> g.seats[n].acceptedAt.Some?)
    && OneSeatEach(g.seats)
  }

  /** Forming exactly while some seat is missing or unanswered; approved and paid when confirmed. */
  predicate PhaseInv(g: Group) {
    match g.phase
    case Forming =>
      !ShouldMoveToTutorReview(g.seats, g.capacity) && g.approvedAt.None? && g.booked == Requested
    case TutorReview => ShouldMoveToTutorReview(g.seats, g.capacity) && g.booked == Requested
    case Confirmed =>
      ShouldMoveToTutorReview(g.seats, g.capacity) && g.approvedAt.Some?
      && |g.seats| > 0 && g.seats[0].status == HostPaid && g.booked == Paid
    case Failed => g.booked == Cancelled
  }

  /** A row that gives the host the whole price back. */
  predicate FullRefund(g: Group, row: LedgerRow) {
    row == LedgerRow(g.id, g.id, g.price, g.price, 0, 0, row.reason)
  }

  /** The ledger holds one full refund or nothing, and only a failed group has been refunded; what is left
      on the intent is the price less what the ledger gave back. */
  predicate LedgerInv(r: Room) {
    var g := r.g;
    && |g.seats| > 0
    && (r.ledger == [] || (|r.ledger| == 1 && FullRefund(g, r.ledger[0]) && g.phase == Failed && g.intent.Some?))
    && (g.intent.Some? ==>
          && g.intent.value.payer == g.host && g.intent.value.booking == g.id
          && g.intent.value.status !in {Disputed, ReleasedForPayout}
          && g.intent.value.amount == (if r.ledger == [] then g.price else 0)
          && (g.intent.value.status == IntentStatus.Refunded ==> r.ledger != []))
    && (g.seats[0].status == HostPaid ==> g.intent.Some?)
    && (g.expiresAt.Some? ==> g.expiresAt.value <= g.start - HOUR)
  }

  /** What every step keeps, whatever order slips are registered and reviewed in. */
  predicate RoomInv(r: Room) {
    SeatsInv(r.g) && PhaseInv(r.g) && LedgerInv(r)
  }

  predicate Held(g: Group) {
    g.intent.Some? && g.intent.value.status == HeldInEscrow
  }

  /** The host's seat reads paid exactly when the money is held or was given back, and a failed group
      holds nothing. */
  predicate PaidUp(r: Room) {
    && |r.g.seats| > 0
    && (r.g.seats[0].status == HostPaid <==> Held(r.g) || r.ledger != [])
    && (r.ledger != [] ==> r.g.intent.Some? && r.g.intent.value.status == IntentStatus.Refunded)
    && (r.g.phase == Failed ==> !Held(r.g))
  }

  /** Two steps do not look at what they find: the slip review not at the group, the slip's registration not
      at the intent. In time are a review while the group is open and a slip for an intent that awaits one. */
  predicate InTime(r: Room, e: GroupEvent) {
    && (e.OnSlipCleared? ==> r.g.phase != Failed)
    && (e.OnUploadSlip? && r.g.intent.Some? ==> AwaitsSlip(r.g.intent.value.status))
  }

  lemma GatheredInv(id: nat, host: User, tutorUser: User, price: nat, capacity: nat, start: int, now: int)
    requires 2 <= capacity
    ensures RoomInv(Gathered(id, host, tutorUser, price, capacity, start, now))
    ensures PaidUp(Gathered(id, host, tutorUser, price, capacity, start, now))
  {
  }

  lemma {:induction false} AddSeatsGrows(seats: seq<Seat>, users: seq<User>)
    ensures |seats| <= |AddSeats(seats, users)| <= |seats| + |users|
    ensures AddSeats(seats, users)[..|seats|] == seats
    ensures forall n :: |seats| <= n < |AddSeats(seats, users)| ==>
              AddSeats(seats, users)[n].status == Invited && AddSeats(seats, users)[n].role == Invitee
  {
    if users != [] {
      AddSeatsGrows(seats, users[..|users| - 1]);
    }
  }

  lemma {:induction false} AddSeatsOneEach(seats: seq<Seat>, users: seq<User>)
    requires OneSeatEach(seats)
    ensures OneSeatEach(AddSeats(seats, users))
  {
    if users != [] {
      AddSeatsOneEach(seats, users[..|users| - 1]);
    }
  }

  lemma AddSeatsKeeps(g: Group, users: seq<User>)
    requires SeatsInv(g) && |g.seats| + |users| <= g.capacity
    ensures SeatsInv(g.(seats := AddSeats(g.seats, users)))
    ensures |g.seats| <= |AddSeats(g.seats, users)| <= |g.seats| + |users|
    ensures AddSeats(g.seats, users)[..|g.seats|] == g.seats
    ensures |AddSeats(g.seats, users)| > |g.seats| ==>
              AddSeats(g.seats, users)[|AddSeats(g.seats, users)| - 1].status == Invited
  {
    AddSeatsGrows(g.seats, users);
    AddSeatsOneEach(g.seats, users);
    var seats := AddSeats(g.seats, users);
    assert forall n :: 0 <= n < |g.seats| ==> seats[n] == seats[..|g.seats|][n];
  }

  lemma AcceptKeeps(r: Room, user: User, now: int, free: bool)
    requires RoomInv(r) && AcceptInvite(r, user, now, free).RoomOk?
    ensures RoomInv(AcceptInvite(r, user, now, free).room)
  {
  }

  lemma DeclineKeeps(r: Room, user: User)
    requires RoomInv(r) && DeclineInvite(r, user).RoomOk?
    ensures RoomInv(DeclineInvite(r, user).room)
  {
    var n := SeatOf(r.g.seats, user);
    assert !Taken(r.g.seats[n := r.g.seats[n].(status := Declined)][n]);
  }

  lemma SlipClearedKeeps(r: Room)
    requires RoomInv(r) && SlipCleared(r).RoomOk?
    ensures RoomInv(SlipCleared(r).room)
  {
    var paid := MarkHostPaid(r.g.seats, r.g.intent.value.payer);
    assert forall n :: 0 <= n < |paid| ==> (Taken(paid[n]) <==> Taken(r.g.seats[n]));
  }

  lemma FailKeeps(r: Room, reason: RefundReason)
    requires RoomInv(r) && r.g.phase != Confirmed
    ensures RoomInv(Fail(r, reason))
  {
  }

  lemma GroupStepKeeps(r: Room, e: GroupEvent)
    requires RoomInv(r) && GroupStep(r, e).RoomOk?
    ensures RoomInv(GroupStep(r, e).room)
  {
    match e
    case OnInvite(_, users, _, _) =>
      AddSeatsKeeps(r.g, users);
      var seats := AddSeats(r.g.seats, users);
      assert |seats| == |r.g.seats| ==> seats[..|r.g.seats|] == seats;
      assert |seats| > |r.g.seats| ==> !Taken(seats[|seats| - 1]);
      assert seats[0] == seats[..|r.g.seats|][0];
    case OnAccept(user, now, free) => AcceptKeeps(r, user, now, free);
    case OnDecline(user) => DeclineKeeps(r, user);
    case OnSlipCleared => SlipClearedKeeps(r);
    case OnReject(user) => FailKeeps(r, GroupRejectedByTutor);
    case OnInviteSweep(now) => if InviteExpired(r.g, now) { FailKeeps(r, GroupInviteExpired); }
    case OnReviewSweep(now) => if ReviewOverdue(r.g, now) { FailKeeps(r, GroupPaymentIncomplete); }
    case _ =>
  }

  /** Registering a slip unpays the host's seat exactly if the money had already arrived. */
  lemma UploadKeepsPaidUpIff(r: Room, user: User)
    requires RoomInv(r) && PaidUp(r) && UploadHostSlip(r, user).RoomOk?
    ensures RoomInv(UploadHostSlip(r, user).room)
    ensures PaidUp(UploadHostSlip(r, user).room) <==> AwaitsSlip(r.g.intent.value.status)
  {
  }

  lemma AnswersKeepPaidUp(r: Room, e: GroupEvent)
    requires RoomInv(r) && PaidUp(r) && GroupStep(r, e).RoomOk? && (e.OnInvite? || e.OnAccept? || e.OnDecline?)
    ensures PaidUp(GroupStep(r, e).room)
  {
    if e.OnInvite? {
      AddSeatsKeeps(r.g, e.users);
      assert AddSeats(r.g.seats, e.users)[0] == AddSeats(r.g.seats, e.users)[..|r.g.seats|][0];
    }
  }

  /** A step keeps the host's seat in agreement with the money if and only if it is in time. */
  lemma GroupStepKeepsPaidUpIff(r: Room, e: GroupEvent)
    requires RoomInv(r) && PaidUp(r) && GroupStep(r, e).RoomOk?
    ensures PaidUp(GroupStep(r, e).room) <==> InTime(r, e)
  {
    GroupStepKeeps(r, e);
    match e
    case OnInvite(_, _, _, _) => AnswersKeepPaidUp(r, e);
    case OnAccept(_, _, _) => AnswersKeepPaidUp(r, e);
    case OnDecline(_) => AnswersKeepPaidUp(r, e);
    case OnUploadSlip(user) => UploadKeepsPaidUpIff(r, user);
    case _ =>
  }

  // ---- runs -------------------------------------------------------------------------------------------------

  ghost predicate GroupMoves(r: Room, e: GroupEvent, r': Room) {
    r' == if GroupStep(r, e).RoomOk? then GroupStep(r, e).room else r
  }

  ghost predicate IsGroupRun(rs: seq<Room>, es: seq<GroupEvent>) {
    IsRunOf(GroupMoves, rs, es)
  }

  lemma GroupRunKeeps(rs: seq<Room>, es: seq<GroupEvent>, k: nat)
    requires IsGroupRun(rs, es) && RoomInv(rs[0]) && k <= |es|
    ensures RoomInv(rs[k])
  {
    assert Preserved(GroupMoves, RoomInv) by {
      forall r, e, r' | RoomInv(r) && GroupMoves(r, e, r') ensures RoomInv(r') {
        if GroupStep(r, e).RoomOk? { GroupStepKeeps(r, e); }
      }
    }
    HoldsAlong(GroupMoves, RoomInv, rs, es, 0, k);
  }

  ghost predicate TimelyMoves(r: Room, e: GroupEvent, r': Room) {
    GroupMoves(r, e, r') && (GroupStep(r, e).RoomOk? ==> InTime(r, e))
  }

  predicate SoundRoom(r: Room) {
    RoomInv(r) && PaidUp(r)
  }

  /** With slips registered and reviewed in time, the host's seat agrees with the money throughout. */
  lemma TimelyRunKeepsPaidUp(rs: seq<Room>, es: seq<GroupEvent>, k: nat)
    requires IsRunOf(TimelyMoves, rs, es) && SoundRoom(rs[0]) && k <= |es|
    ensures SoundRoom(rs[k])
  {
    assert Preserved(TimelyMoves, SoundRoom) by {
      forall r, e, r' | SoundRoom(r) && TimelyMoves(r, e, r') ensures SoundRoom(r') {
        if GroupStep(r, e).RoomOk? { GroupStepKeeps(r, e); GroupStepKeepsPaidUpIff(r, e); }
      }
    }
    HoldsAlong(TimelyMoves, SoundRoom, rs, es, 0, k);
  }
}
