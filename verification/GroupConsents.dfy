/** Who stands behind a group class, and when its time is up: answers, approvals, sweeps, by the clock. */
module GroupConsents {
  import opened Basics
  import opened Runs
  import opened Bookings
  import opened GroupSessions
  import opened GroupPromises

  // ---- what a group's runs keep ------------------------------------------------------------------------

  /** A new group, created at `now`. */
  predicate Begins(r: Room, now: int) {
    && 2 <= r.g.capacity
    && r == Gathered(r.g.id, r.g.host, r.g.tutorUser, r.g.price, r.g.capacity, r.g.start, now)
  }

  lemma BeginsInv(r: Room, now: int)
    requires Begins(r, now)
    ensures RoomInv(r)
  {
    GatheredInv(r.g.id, r.g.host, r.g.tutorUser, r.g.price, r.g.capacity, r.g.start, now);
  }

  predicate SameTerms(g: Group, g': Group) {
    && g'.id == g.id && g'.host == g.host && g'.tutorUser == g.tutorUser
    && g'.price == g.price && g'.capacity == g.capacity && g'.start == g.start
  }

  /** The class stays what it is, and whoever has answered keeps the seat and the instant of the answer. */
  predicate Continues(r: Room, r': Room) {
    && SameTerms(r.g, r'.g) && |r.g.seats| <= |r'.g.seats|
    && (forall n :: 0 <= n < |r.g.seats| ==>
          && r'.g.seats[n].student == r.g.seats[n].student
          && (r.g.seats[n].status != Invited ==>
                r'.g.seats[n].status != Invited && r'.g.seats[n].acceptedAt == r.g.seats[n].acceptedAt))
    && (r.g.expiresAt.Some? ==> r'.g.expiresAt.Some? && r'.g.expiresAt.value >= r.g.expiresAt.value)
  }

  lemma StepContinues(r: Room, e: GroupEvent)
    requires RoomInv(r) && GroupStep(r, e).RoomOk?
    ensures Continues(r, GroupStep(r, e).room)
  {
    if e.OnInvite? {
      AddSeatsKeeps(r.g, e.users);
      var seats := AddSeats(r.g.seats, e.users);
      assert forall n :: 0 <= n < |r.g.seats| ==> seats[n] == seats[..|r.g.seats|][n];
    }
  }

  lemma RunContinues(rs: seq<Room>, es: seq<GroupEvent>, j: nat, k: nat)
    requires IsGroupRun(rs, es) && RoomInv(rs[0]) && j <= k <= |es|
    ensures Continues(rs[j], rs[k])
  {
    GroupRunKeeps(rs, es, j);
    GroupMovesEvolve();
    forall r, e, r' | RoomInv(r) && GroupMoves(r, e, r') ensures Continues(r, r') {
      if GroupStep(r, e).RoomOk? { StepContinues(r, e); }
    }
    RelatesAlong(GroupMoves, RoomInv, Continues, rs, es, j, k);
  }

  /** The host has the first seat, taken when the group was created. */
  lemma HostSatDown(rs: seq<Room>, es: seq<GroupEvent>, k: nat, created: int)
    requires IsGroupRun(rs, es) && Begins(rs[0], created) && k <= |es|
    ensures |rs[k].g.seats| > 0 && rs[k].g.seats[0].student == rs[0].g.host && rs[k].g.seats[0].role == Host
    ensures rs[k].g.seats[0].acceptedAt == Some(created)
  {
    BeginsInv(rs[0], created);
    GroupRunKeeps(rs, es, k);
    RunContinues(rs, es, 0, k);
  }

  // ---- when the invitations end ------------------------------------------------------------------------

  /** The host has put off the end of the invitations before state k. */
  ghost predicate Extended(rs: seq<Room>, es: seq<GroupEvent>, k: nat)
    requires k <= |es| < |rs|
  {
    exists m :: 0 <= m < k && es[m] == OnExtend(rs[0].g.host) && rs[m].g.phase == Forming
  }

  /** Invitations last until a day before class, or until an hour before it if they were sent later than that or
      the host has put off their end. */
  ghost function EndOfInvites(rs: seq<Room>, es: seq<GroupEvent>, k: nat, created: int): int
    requires k <= |es| < |rs|
  {
    var start := rs[0].g.start;
    if start - 86_400_000 > created && !Extended(rs, es, k) then start - 86_400_000 else start - 3_600_000
  }

  lemma MoveEnds(r: Room, e: GroupEvent, r': Room)
    requires GroupMoves(r, e, r') && r.g.expiresAt.Some?
    requires r.g.expiresAt.value in {r.g.start - 86_400_000, r.g.start - 3_600_000}
    ensures r'.g.expiresAt ==
            if e == OnExtend(r.g.host) && r.g.phase == Forming then Some(r.g.start - 3_600_000) else r.g.expiresAt
  {
  }

  lemma {:induction false} InvitationsEnd(rs: seq<Room>, es: seq<GroupEvent>, k: nat, created: int)
    requires IsGroupRun(rs, es) && Begins(rs[0], created) && k <= |es|
    ensures rs[k].g.expiresAt == Some(EndOfInvites(rs, es, k, created))
  {
    if k > 0 {
      InvitationsEnd(rs, es, k - 1, created);
      RunContinues(rs, es, 0, k - 1);
      assert GroupMoves(rs[k - 1], es[k - 1], rs[k]);
      MoveEnds(rs[k - 1], es[k - 1], rs[k]);
    }
  }

  /** The user has an invitation that waits for an answer. */
  predicate IsInvited(g: Group, user: User) {
    exists n :: 0 <= n < |g.seats| && g.seats[n].student == user && g.seats[n].status == Invited
  }

  lemma InvitedSeat(g: Group, user: User)
    requires SeatsInv(g) && IsInvited(g, user)
    ensures Seats(g.seats, user) && g.seats[SeatOf(g.seats, user)].status == Invited && 1 <= SeatOf(g.seats, user)
  {
  }

  /** An end that is over for the sweep is over for the invited, the other way round too, and stays over. */
  lemma ExpiredIff(r: Room, user: User, now: int, later: int)
    requires RoomInv(r) && r.g.phase == Forming && IsInvited(r.g, user) && now <= later
    ensures InviteExpired(r.g, now) <==> AcceptInvite(r, user, now, true) == RoomRefused(BadRequest)
    ensures InviteExpired(r.g, now) ==> InviteExpired(r.g, later)
  {
    InvitedSeat(r.g, user);
  }

  /** The sweep fails a forming group if and only if its invitations have ended. */
  lemma SweptIff(rs: seq<Room>, es: seq<GroupEvent>, n: nat, created: int)
    requires IsGroupRun(rs, es) && Begins(rs[0], created) && n < |es|
    requires es[n].OnInviteSweep? && rs[n].g.phase == Forming
    ensures rs[n + 1].g.phase == Failed <==> EndOfInvites(rs, es, n, created) < es[n].now
  {
    InvitationsEnd(rs, es, n, created);
    assert GroupMoves(rs[n], es[n], rs[n + 1]);
  }

  /** An invited user says yes, on a free calendar, while the group is forming. */
  ghost predicate Accepts(r: Room, e: GroupEvent) {
    && e.OnAccept? && e.free && GroupStep(r, e).RoomOk?
    && r.g.phase == Forming && IsInvited(r.g, e.user)
  }

  /** An invited user takes the seat if and only if the invitations have not ended and their calendar is free. */
  lemma SeatedIff(rs: seq<Room>, es: seq<GroupEvent>, n: nat, created: int)
    requires IsGroupRun(rs, es) && Begins(rs[0], created) && n < |es|
    requires es[n].OnAccept? && rs[n].g.phase == Forming && IsInvited(rs[n].g, es[n].user)
    ensures IsInvited(rs[n + 1].g, es[n].user) <==> !(es[n].free && es[n].now <= EndOfInvites(rs, es, n, created))
    ensures !IsInvited(rs[n + 1].g, es[n].user) ==> Accepts(rs[n], es[n])
  {
    BeginsInv(rs[0], created);
    GroupRunKeeps(rs, es, n);
    GroupRunKeeps(rs, es, n + 1);
    InvitationsEnd(rs, es, n, created);
    InvitedSeat(rs[n].g, es[n].user);
    assert GroupMoves(rs[n], es[n], rs[n + 1]);
  }
  // ---- who said yes, and when ----------------------------------------------------------------------------

  /** An invitee sits in the class who said yes at `at`. */
  predicate SaidYes(g: Group, user: User, at: int) {
    exists n :: 1 <= n < |g.seats| && g.seats[n].student == user && Taken(g.seats[n]) && g.seats[n].acceptedAt == Some(at)
  }

  lemma YesBefore(r: Room, e: GroupEvent, r': Room, user: User, at: int)
    requires RoomInv(r) && GroupMoves(r, e, r') && SaidYes(r'.g, user, at)
    ensures (Accepts(r, e) && e.user == user && e.now == at) || SaidYes(r.g, user, at)
  {
    var n :| 1 <= n < |r'.g.seats| && r'.g.seats[n].student == user && Taken(r'.g.seats[n])
             && r'.g.seats[n].acceptedAt == Some(at);
    if GroupStep(r, e).RoomOk? {
      if e.OnInvite? {
        AddSeatsGrows(r.g.seats, e.users);
        assert n < |r.g.seats| ==> r'.g.seats[n] == r'.g.seats[..|r.g.seats|][n];
      } else {
        assert n < |r.g.seats| && r'.g.seats[n].student == r.g.seats[n].student;
      }
    }
  }

  lemma YesWasSaid(rs: seq<Room>, es: seq<GroupEvent>, k: nat, created: int, user: User, at: int)
    requires IsGroupRun(rs, es) && Begins(rs[0], created) && k <= |es| && SaidYes(rs[k].g, user, at)
    ensures exists m :: 0 <= m < k && Accepts(rs[m], es[m]) && es[m].user == user && es[m].now == at
  {
    BeginsInv(rs[0], created);
    var bad := (r: Room) => SaidYes(r.g, user, at);
    var culprit := (r: Room, e: GroupEvent, later: Room) => Accepts(r, e) && e.user == user && e.now == at;
    GroupMovesEvolve();
    forall r, e, r' | RoomInv(r) && GroupMoves(r, e, r') && bad(r') ensures culprit(r, e, r') || bad(r) {
      YesBefore(r, e, r', user, at);
    }
    TracedBack(GroupMoves, RoomInv, bad, culprit, rs, es, 0, k);
  }

  lemma AcceptanceIsKept(rs: seq<Room>, es: seq<GroupEvent>, m: nat, k: nat)
    requires IsGroupRun(rs, es) && RoomInv(rs[0]) && m < k <= |es| && Accepts(rs[m], es[m])
    requires rs[k].g.phase == TutorReview
    ensures SaidYes(rs[k].g, es[m].user, es[m].now)
  {
    GroupRunKeeps(rs, es, m);
    GroupRunKeeps(rs, es, k);
    RunContinues(rs, es, m + 1, k);
    InvitedSeat(rs[m].g, es[m].user);
    assert GroupMoves(rs[m], es[m], rs[m + 1]);
    var n := SeatOf(rs[m].g.seats, es[m].user);
    assert rs[m + 1].g.seats[n].acceptedAt == Some(es[m].now) && rs[m + 1].g.seats[n].student == es[m].user;
  }

  /** Every invitee of the class said yes before `cutoff`. */
  predicate AllSaidYesBefore(g: Group, cutoff: int) {
    forall n :: 1 <= n < |g.seats| ==> g.seats[n].acceptedAt.Some? && g.seats[n].acceptedAt.value < cutoff
  }

  lemma SweptWhenOld(r: Room, now: int)
    requires RoomInv(r) && r.g.phase == TutorReview
    ensures ReviewOverdue(r.g, now) <==> AllSaidYesBefore(r.g, now - 86_400_000)
  {
    assert forall n :: 0 <= n < |r.g.seats| ==> Taken(r.g.seats[n]);
  }

  lemma AllSaidYesBeforeIff(rs: seq<Room>, es: seq<GroupEvent>, n: nat, created: int, cutoff: int)
    requires IsGroupRun(rs, es) && Begins(rs[0], created) && n <= |es| && rs[n].g.phase == TutorReview
    ensures AllSaidYesBefore(rs[n].g, cutoff)
            <==> forall m :: 0 <= m < n && Accepts(rs[m], es[m]) ==> es[m].now < cutoff
  {
    BeginsInv(rs[0], created);
    GroupRunKeeps(rs, es, n);
    var seats := rs[n].g.seats;
    forall i | 1 <= i < |seats|
      ensures exists m :: 0 <= m < n && Accepts(rs[m], es[m]) && seats[i].acceptedAt == Some(es[m].now)
    {
      assert Taken(seats[i]);
      YesWasSaid(rs, es, n, created, seats[i].student, seats[i].acceptedAt.value);
    }
    forall m | 0 <= m < n && Accepts(rs[m], es[m])
      ensures exists i :: 1 <= i < |seats| && seats[i].acceptedAt == Some(es[m].now)
    {
      AcceptanceIsKept(rs, es, m, n);
    }
  }

  /** The sweep fails a class that waits for its tutor if and only if everybody who accepted did so more than a
      day ago. */
  lemma OverdueIff(rs: seq<Room>, es: seq<GroupEvent>, n: nat, created: int)
    requires IsGroupRun(rs, es) && Begins(rs[0], created) && n < |es|
    requires es[n].OnReviewSweep? && rs[n].g.phase == TutorReview
    ensures rs[n + 1].g.phase == Failed
            <==> forall m :: 0 <= m < n && Accepts(rs[m], es[m]) ==> es[m].now + 86_400_000 < es[n].now
  {
    BeginsInv(rs[0], created);
    GroupRunKeeps(rs, es, n);
    assert GroupMoves(rs[n], es[n], rs[n + 1]);
    SweptWhenOld(rs[n], es[n].now);
    AllSaidYesBeforeIff(rs, es, n, created, es[n].now - 86_400_000);
  }

  // ---- nobody is put into a class ------------------------------------------------------------------------

  /** The host invites the user while the group is forming. */
  ghost predicate Invites(r: Room, e: GroupEvent, user: User) {
    e.OnInvite? && e.user == r.g.host && user in e.users && r.g.phase == Forming && GroupStep(r, e).RoomOk?
  }

  predicate HasPlace(g: Group, user: User) {
    exists n :: 1 <= n < |g.seats| && g.seats[n].student == user
  }

  /** Adding seats seats exactly those who were seated and those who were listed. */
  lemma {:induction false} AddSeatsExact(seats: seq<Seat>, users: seq<User>, user: User)
    ensures Seats(AddSeats(seats, users), user) <==> Seats(seats, user) || user in users
  {
    if users != [] {
      var last := |users| - 1;
      AddSeatsExact(seats, users[..last], user);
      var before := AddSeats(seats, users[..last]);
      assert user in users <==> user in users[..last] || user == users[last];
      assert (before + [Seat(users[last], Invitee, Invited, None)])[|before|].student == users[last];
      assert forall n :: 0 <= n < |before| ==> (before + [Seat(users[last], Invitee, Invited, None)])[n] == before[n];
    }
  }

  /** An invitation list seats exactly the people on it, beside those who are already there. */
  lemma ListedAreInvited(r: Room, e: GroupEvent, user: User)
    requires RoomInv(r) && e.OnInvite? && GroupStep(r, e).RoomOk?
    ensures HasPlace(GroupStep(r, e).room.g, user) <==> HasPlace(r.g, user) || (user in e.users && user != r.g.host)
    ensures !Seats(r.g.seats, user) && user in e.users ==> IsInvited(GroupStep(r, e).room.g, user)
  {
    var seats := AddSeats(r.g.seats, e.users);
    AddSeatsExact(r.g.seats, e.users, user);
    AddSeatsGrows(r.g.seats, e.users);
    GroupStepKeeps(r, e);
    assert forall n :: 0 <= n < |r.g.seats| ==> seats[n] == seats[..|r.g.seats|][n];
    assert seats[0].student == r.g.host;
  }

  lemma PlaceBefore(r: Room, e: GroupEvent, r': Room, user: User)
    requires RoomInv(r) && GroupMoves(r, e, r') && HasPlace(r'.g, user)
    ensures Invites(r, e, user) || HasPlace(r.g, user)
  {
    if e.OnInvite? && GroupStep(r, e).RoomOk? { ListedAreInvited(r, e, user); }
  }

  lemma PlaceWasOffered(rs: seq<Room>, es: seq<GroupEvent>, k: nat, created: int, user: User)
    requires IsGroupRun(rs, es) && Begins(rs[0], created) && k <= |es| && HasPlace(rs[k].g, user)
    ensures exists m :: 0 <= m < k && Invites(rs[m], es[m], user)
  {
    BeginsInv(rs[0], created);
    var bad, culprit := (r: Room) => HasPlace(r.g, user), (r: Room, e: GroupEvent, later: Room) => Invites(r, e, user);
    GroupMovesEvolve();
    forall r, e, r' | RoomInv(r) && GroupMoves(r, e, r') && bad(r') ensures culprit(r, e, r') || bad(r) {
      PlaceBefore(r, e, r', user);
    }
    TracedBack(GroupMoves, RoomInv, bad, culprit, rs, es, 0, k);
  }

  ghost predicate Approves(r: Room, e: GroupEvent) {
    e.OnApprove? && e.user == r.g.tutorUser && r.g.phase == TutorReview
  }

  lemma ApprovedBefore(r: Room, e: GroupEvent, r': Room, at: int)
    requires GroupMoves(r, e, r') && r'.g.approvedAt == Some(at)
    ensures (Approves(r, e) && e.now == at) || r.g.approvedAt == Some(at)
  {
  }

  lemma ApprovalWasGiven(rs: seq<Room>, es: seq<GroupEvent>, k: nat, created: int)
    requires IsGroupRun(rs, es) && Begins(rs[0], created) && k <= |es| && rs[k].g.approvedAt.Some?
    ensures exists m :: 0 <= m < k && Approves(rs[m], es[m]) && rs[k].g.approvedAt == Some(es[m].now)
  {
    BeginsInv(rs[0], created);
    var at := rs[k].g.approvedAt.value;
    var bad := (r: Room) => r.g.approvedAt == Some(at);
    var culprit := (r: Room, e: GroupEvent, later: Room) => Approves(r, e) && e.now == at;
    GroupMovesEvolve();
    forall r, e, r' | RoomInv(r) && GroupMoves(r, e, r') && bad(r') ensures culprit(r, e, r') || bad(r) {
      ApprovedBefore(r, e, r', at);
    }
    TracedBack(GroupMoves, RoomInv, bad, culprit, rs, es, 0, k);
  }

  predicate SlipWaits(g: Group) {
    g.phase != Failed && g.intent.Some? && AwaitsReview(g.intent.value.status)
  }

  ghost predicate RegistersHosts(r: Room, e: GroupEvent) {
    e == OnUploadSlip(r.g.host) && r.g.intent.Some?
  }

  lemma SlipWaitedBefore(r: Room, e: GroupEvent, r': Room)
    requires RoomInv(r) && GroupMoves(r, e, r') && SlipWaits(r'.g)
    ensures RegistersHosts(r, e) || SlipWaits(r.g)
  {
  }

  lemma SlipWasRegistered(rs: seq<Room>, es: seq<GroupEvent>, k: nat, created: int)
    requires IsGroupRun(rs, es) && Begins(rs[0], created) && k <= |es| && SlipWaits(rs[k].g)
    ensures exists m :: 0 <= m < k && RegistersHosts(rs[m], es[m])
  {
    BeginsInv(rs[0], created);
    var bad := (r: Room) => SlipWaits(r.g);
    var culprit := (r: Room, e: GroupEvent, later: Room) => RegistersHosts(r, e);
    GroupMovesEvolve();
    forall r, e, r' | RoomInv(r) && GroupMoves(r, e, r') && bad(r') ensures culprit(r, e, r') || bad(r) {
      SlipWaitedBefore(r, e, r');
    }
    TracedBack(GroupMoves, RoomInv, bad, culprit, rs, es, 0, k);
  }

  /** The user was invited by the host and said yes on a free calendar before the invitations ended. */
  ghost predicate CameFreely(rs: seq<Room>, es: seq<GroupEvent>, k: nat, created: int, user: User)
    requires k <= |es| < |rs|
  {
    exists i, m :: 0 <= i < m < k && Invites(rs[i], es[i], user)
                   && Accepts(rs[m], es[m]) && es[m].user == user && es[m].now <= EndOfInvites(rs, es, m, created)
  }

  lemma SeatedCameFreely(rs: seq<Room>, es: seq<GroupEvent>, k: nat, created: int, n: nat)
    requires IsGroupRun(rs, es) && Begins(rs[0], created) && k <= |es|
    requires 1 <= n < |rs[k].g.seats| && Taken(rs[k].g.seats[n])
    ensures CameFreely(rs, es, k, created, rs[k].g.seats[n].student)
  {
    BeginsInv(rs[0], created);
    GroupRunKeeps(rs, es, k);
    var user, at := rs[k].g.seats[n].student, rs[k].g.seats[n].acceptedAt.value;
    YesWasSaid(rs, es, k, created, user, at);
    var m :| 0 <= m < k && Accepts(rs[m], es[m]) && es[m].user == user && es[m].now == at;
    GroupRunKeeps(rs, es, m);
    InvitationsEnd(rs, es, m, created);
    InvitedSeat(rs[m].g, user);
    assert HasPlace(rs[m].g, user);
    PlaceWasOffered(rs, es, m, created, user);
  }

  /** Behind every confirmed class are the host's invitation and the own, timely yes of each friend, then the tutor's
      approval, and at last the review of a slip that the host had registered. */
  lemma ConfirmedByAll(rs: seq<Room>, es: seq<GroupEvent>, k: nat, created: int)
    returns (approved: nat, slip: nat, cleared: nat)
    requires IsGroupRun(rs, es) && Begins(rs[0], created) && k <= |es| && rs[k].g.phase == Confirmed
    ensures approved < cleared < k && slip < cleared
    ensures Approves(rs[approved], es[approved]) && RegistersHosts(rs[slip], es[slip]) && es[cleared] == OnSlipCleared
    ensures forall n :: 1 <= n < |rs[k].g.seats| ==> CameFreely(rs, es, approved, created, rs[k].g.seats[n].student)
  {
    BeginsInv(rs[0], created);
    cleared := ConfirmingStep(rs, es, 0, k);
    GroupRunKeeps(rs, es, cleared);
    assert GroupMoves(rs[cleared], es[cleared], rs[cleared + 1]);
    MoveConfirmsIff(rs[cleared], es[cleared], rs[cleared + 1]);
    SlipWasRegistered(rs, es, cleared, created);
    slip :| 0 <= slip < cleared && RegistersHosts(rs[slip], es[slip]);
    ApprovalWasGiven(rs, es, cleared, created);
    approved :| 0 <= approved < cleared && Approves(rs[approved], es[approved]);
    GroupRunKeeps(rs, es, approved);
    GroupRunEvolves(rs, es, approved, k);
    forall n | 1 <= n < |rs[k].g.seats| ensures CameFreely(rs, es, approved, created, rs[k].g.seats[n].student) {
      assert rs[k].g.seats[n].student == rs[approved].g.seats[n].student;
      SeatedCameFreely(rs, es, approved, created, n);
    }
  }

  // ---- no failure without a reason -------------------------------------------------------------------------

  /** The tutor turns the class down, or a sweep meets a group whose time is up. */
  ghost predicate EndsGroup(r: Room, e: GroupEvent) {
    || (r.g.phase == TutorReview && e == OnReject(r.g.tutorUser))
    || (r.g.phase == Forming && e.OnInviteSweep? && r.g.expiresAt.Some? && r.g.expiresAt.value < e.now)
    || (r.g.phase == TutorReview && e.OnReviewSweep? && AllSaidYesBefore(r.g, e.now - 86_400_000))
  }

  function ReasonFor(e: GroupEvent): RefundReason {
    if e.OnReject? then GroupRejectedByTutor else if e.OnInviteSweep? then GroupInviteExpired else GroupPaymentIncomplete
  }

  /** A step fails a group exactly for one of these reasons; money that is held goes back with that reason. */
  lemma FailsIff(r: Room, e: GroupEvent, r': Room)
    requires RoomInv(r) && GroupMoves(r, e, r') && r.g.phase != Failed
    ensures r'.g.phase == Failed <==> EndsGroup(r, e)
    ensures r'.g.phase == Failed ==>
              r'.ledger == if Held(r.g) then [LedgerRow(r.g.id, r.g.id, r.g.price, r.g.price, 0, 0, ReasonFor(e))] else []
  {
    if e.OnReviewSweep? && r.g.phase == TutorReview { SweptWhenOld(r, e.now); }
  }

  /** Whoever declines marks the own seat, and nothing else changes. */
  lemma DecliningMarksTheSeat(r: Room, user: User, n: nat)
    requires RoomInv(r) && DeclineInvite(r, user).RoomOk? && n < |r.g.seats| && r.g.seats[n].student == user
    ensures var g := DeclineInvite(r, user).room.g;
            && |g.seats| == |r.g.seats| && g.seats[n] == r.g.seats[n].(status := Declined)
            && g == r.g.(seats := r.g.seats[n := g.seats[n]]) && DeclineInvite(r, user).room.ledger == r.ledger
  {
    assert SeatOf(r.g.seats, user) == n;
    assert r.g.seats[n := r.g.seats[n]] == r.g.seats;
  }

  // ---- who may do what ---------------------------------------------------------------------------------------

  predicate InUse(g: Group) {
    g.phase == Forming || g.phase == TutorReview
  }

  predicate HasDeclined(g: Group, user: User) {
    exists n :: 0 <= n < |g.seats| && g.seats[n].student == user && g.seats[n].status == Declined
  }

  /** What a step of a group is refused with, if it is. The sweeps refuse nothing. */
  function RefusalOf(r: Room, e: GroupEvent): Option<Refusal> {
    var g := r.g;
    match e
    case OnInvite(user, users, unknown, anySuspended) =>
      if user != g.host then Some(Forbidden)
      else if g.phase == Forming && unknown == 0 && !anySuspended && |g.seats| + |users| <= g.capacity then None
      else Some(BadRequest)
    case OnAccept(user, now, free) =>
      if g.phase != Forming || (g.expiresAt.Some? && g.expiresAt.value < now) then Some(BadRequest)
      else if user == g.host then None
      else if !HasPlace(g, user) then Some(Forbidden)
      else if HasDeclined(g, user) then Some(Conflict)
      else if IsInvited(g, user) && !free then Some(Clash(ExistingBooking))
      else None
    case OnDecline(user) =>
      if g.phase != Forming || user == g.host then Some(BadRequest)
      else if !HasPlace(g, user) then Some(Forbidden)
      else None
    case OnApprove(user, _) =>
      if user != g.tutorUser then Some(Forbidden) else if g.phase == TutorReview then None else Some(BadRequest)
    case OnReject(user) =>
      if user != g.tutorUser then Some(Forbidden) else if g.phase == TutorReview then None else Some(BadRequest)
    case OnOpenIntent(user) =>
      if user != g.host then Some(Forbidden) else if InUse(g) then None else Some(BadRequest)
    case OnUploadSlip(user) =>
      if g.intent.None? then Some(NotFound) else if user != g.host then Some(Forbidden) else None
    case OnSlipCleared =>
      if g.intent.None? then Some(NotFound)
      else if g.intent.value.status in {SlipUploaded, Verifying, SlipFailed} then None
      else Some(BadRequest)
    case OnExtend(user) =>
      if user != g.host then Some(Forbidden)
      else if g.phase == Forming && g.expiresAt.Some? && g.expiresAt.value < g.start - 3_600_000 then None
      else Some(BadRequest)
    case OnInviteSweep(_) => None
    case OnReviewSweep(_) => None
  }

  lemma SeatIs(g: Group, user: User)
    requires SeatsInv(g)
    ensures Seats(g.seats, user) <==> user == g.host || HasPlace(g, user)
    ensures Seats(g.seats, user) ==>
              var n := SeatOf(g.seats, user);
              && (n == 0 <==> user == g.host)
              && (g.seats[n].status == Invited <==> IsInvited(g, user))
              && (g.seats[n].status == Declined <==> HasDeclined(g, user))
  {
  }

  /** Every step is accepted or refused just so. */
  lemma RefusedJustSo(r: Room, e: GroupEvent)
    requires RoomInv(r)
    ensures GroupStep(r, e).RoomOk? <==> RefusalOf(r, e).None?
    ensures RefusalOf(r, e).Some? ==> GroupStep(r, e) == RoomRefused(RefusalOf(r, e).value)
  {
    if e.OnAccept? || e.OnDecline? { SeatIs(r.g, e.user); }
  }
}
