/** Whole runs of a group class: where it can go, who is in it, and what a payment is worth. */
module GroupPromises {
  import opened Basics
  import opened Runs
  import opened Bookings
  import opened GroupSessions

  /** The phases that can come after `p`, in one step or many. */
  predicate Later(p: Phase, p': Phase) {
    p' == p || p == Forming || (p == TutorReview && (p' == Confirmed || p' == Failed))
  }

  /** Same people in the same seats, the same answers; only the host's seat may have become paid. */
  predicate SameClass(seats: seq<Seat>, seats': seq<Seat>) {
    |seats'| == |seats| && forall n :: 0 <= n < |seats| ==>
      seats'[n] == seats[n] || (n == 0 && seats[n].role == Host && seats'[n] == seats[n].(status := HostPaid))
  }

  predicate GroupEvolves(r: Room, r': Room) {
    var g, g' := r.g, r'.g;
    && Later(g.phase, g'.phase)
    && (g.phase != Forming ==> SameClass(g.seats, g'.seats))
    && |g.seats| <= |g'.seats|
    && (forall n :: 0 <= n < |g.seats| ==>
          g'.seats[n].student == g.seats[n].student
          && (g.seats[n].status == Declined ==> g'.seats[n].status == Declined))
    && (g.approvedAt.Some? ==> g'.approvedAt == g.approvedAt)
    && r.ledger <= r'.ledger && (g.phase == Failed ==> r'.ledger == r.ledger)
  }

  lemma GroupStepEvolves(r: Room, e: GroupEvent)
    requires RoomInv(r) && GroupStep(r, e).RoomOk?
    ensures GroupEvolves(r, GroupStep(r, e).room)
  {
    if e.OnInvite? {
      AddSeatsKeeps(r.g, e.users);
      var seats := AddSeats(r.g.seats, e.users);
      assert forall n :: 0 <= n < |r.g.seats| ==> seats[n] == seats[..|r.g.seats|][n];
    }
  }

  lemma GroupMovesEvolve()
    ensures Preserved(GroupMoves, RoomInv) && StepRelates(GroupMoves, RoomInv, GroupEvolves)
    ensures ReflexiveTransitive(RoomInv, GroupEvolves)
  {
    forall r, e, r' | RoomInv(r) && GroupMoves(r, e, r') ensures RoomInv(r') && GroupEvolves(r, r') {
      if GroupStep(r, e).RoomOk? { GroupStepKeeps(r, e); GroupStepEvolves(r, e); }
    }
    forall r, r', r'' | GroupEvolves(r, r') && GroupEvolves(r', r'') ensures GroupEvolves(r, r'') {}
  }

  lemma GroupRunEvolves(rs: seq<Room>, es: seq<GroupEvent>, j: nat, k: nat)
    requires IsGroupRun(rs, es) && RoomInv(rs[0]) && j <= k <= |es|
    ensures GroupEvolves(rs[j], rs[k])
  {
    GroupRunKeeps(rs, es, j);
    GroupRunKeeps(rs, es, k);
    GroupMovesEvolve();
    RelatesAlong(GroupMoves, RoomInv, GroupEvolves, rs, es, j, k);
  }

  /** A step confirms the class exactly when it is a slip clearing in a reviewed, approved group;
      approval alone never does, in either order. */
  lemma ConfirmsIff(r: Room, e: GroupEvent)
    requires RoomInv(r) && GroupStep(r, e).RoomOk? && r.g.phase != Confirmed
    ensures GroupStep(r, e).room.g.phase == Confirmed
            <==> e.OnSlipCleared? && r.g.phase == TutorReview && r.g.approvedAt.Some?
  {
  }

  /** A confirmed class is full, everybody accepted, the tutor approved and the host paid; and it is
      made of exactly the people who were seated at any earlier review. */
  lemma ConfirmedMeansAgreed(rs: seq<Room>, es: seq<GroupEvent>, j: nat, k: nat)
    requires IsGroupRun(rs, es) && RoomInv(rs[0]) && j <= k <= |es|
    requires rs[k].g.phase == Confirmed
    ensures var g := rs[k].g;
            && |g.seats| == g.capacity && (forall n :: 0 <= n < |g.seats| ==> Taken(g.seats[n]))
            && g.approvedAt.Some? && |g.seats| > 0 && g.seats[0].student == g.host && g.seats[0].status == HostPaid
    ensures rs[j].g.phase != Forming ==> SameClass(rs[j].g.seats, rs[k].g.seats)
  {
    GroupRunKeeps(rs, es, k);
    GroupRunEvolves(rs, es, j, k);
  }

  /** One declined seat closes the way for good. */
  lemma DeclinedNeverConfirms(rs: seq<Room>, es: seq<GroupEvent>, j: nat, k: nat, n: nat)
    requires IsGroupRun(rs, es) && RoomInv(rs[0]) && j <= k <= |es|
    requires n < |rs[j].g.seats| && rs[j].g.seats[n].status == Declined
    ensures rs[k].g.phase == Forming || rs[k].g.phase == Failed
  {
    GroupRunKeeps(rs, es, k);
    GroupRunEvolves(rs, es, j, k);
    assert !Taken(rs[k].g.seats[n]);
  }

  // ---- a host who pays early ---------------------------------------------------------------------------

  /** The step registers a slip, whatever the intent's state. */
  predicate Registers(r: Room, e: GroupEvent) {
    e.OnUploadSlip? && GroupStep(r, e).RoomOk?
  }

  predicate Clears(r: Room, e: GroupEvent) {
    e.OnSlipCleared? && GroupStep(r, e).RoomOk?
  }

  predicate NotFailed(r: Room) {
    r.g.phase != Failed
  }

  predicate HoldsMoney(r: Room) {
    Held(r.g)
  }

  lemma SlipSwitchesMoney(r: Room, e: GroupEvent, r': Room)
    requires RoomInv(r) && GroupMoves(r, e, r') && NotFailed(r')
    ensures NotFailed(r)
    ensures Held(r'.g) == if Registers(r, e) then false else if Clears(r, e) then true else Held(r.g)
  {
  }

  /** While the group has not failed, money once held is held exactly as long as every slip registered
      since has been cleared. */
  lemma HeldUnlessSlipWaits(rs: seq<Room>, es: seq<GroupEvent>, j: nat, k: nat)
    requires IsGroupRun(rs, es) && RoomInv(rs[0]) && j <= k <= |es| && Held(rs[j].g) && rs[k].g.phase != Failed
    ensures Held(rs[k].g) <==> !StillSet(Registers, Clears, rs, es, j, k)
  {
    GroupRunKeeps(rs, es, j);
    GroupRunKeeps(rs, es, k);
    GroupMovesEvolve();
    assert Switches(GroupMoves, RoomInv, NotFailed, Registers, Clears, HoldsMoney) by {
      forall r, e, r' | RoomInv(r) && GroupMoves(r, e, r') && NotFailed(r')
        ensures NotFailed(r) && HoldsMoney(r') == (if Registers(r, e) then false else if Clears(r, e) then true else HoldsMoney(r))
      {
        SlipSwitchesMoney(r, e, r');
      }
    }
    OnUnlessStillSet(GroupMoves, RoomInv, NotFailed, Registers, Clears, HoldsMoney, rs, es, j, k);
  }

  /** A failure gives back what is held, and nothing else. */
  lemma FailureRefundsIffHeld(r: Room, e: GroupEvent, r': Room)
    requires RoomInv(r) && r.g.phase != Failed && GroupMoves(r, e, r') && r'.g.phase == Failed
    ensures if Held(r.g) then |r'.ledger| == 1 && FullRefund(r.g, r'.ledger[0])
                              && r'.g.intent.value.status == IntentStatus.Refunded
            else r'.ledger == [] && !Held(r'.g)
  {
  }

  /** A host who has paid gets the whole price back from a failure if and only if no slip registered
      since is still waiting; and whatever the failure wrote stays the last word. */
  lemma PaidHostRefundedIff(rs: seq<Room>, es: seq<GroupEvent>, j: nat, k: nat, end: nat)
    requires IsGroupRun(rs, es) && RoomInv(rs[0]) && j <= k < end <= |es| && Held(rs[j].g)
    requires rs[k].g.phase != Failed && rs[k + 1].g.phase == Failed
    ensures if StillSet(Registers, Clears, rs, es, j, k) then rs[end].ledger == []
            else |rs[end].ledger| == 1 && FullRefund(rs[k].g, rs[end].ledger[0])
  {
    GroupRunKeeps(rs, es, k);
    HeldUnlessSlipWaits(rs, es, j, k);
    assert GroupMoves(rs[k], es[k], rs[k + 1]);
    FailureRefundsIffHeld(rs[k], es[k], rs[k + 1]);
    GroupRunEvolves(rs, es, k + 1, end);
  }

  /** The event confirms the class. */
  predicate ConfirmsNow(r: Room, e: GroupEvent) {
    Clears(r, e) && r.g.phase == TutorReview && r.g.approvedAt.Some?
  }

  lemma MoveConfirmsIff(r: Room, e: GroupEvent, r': Room)
    requires RoomInv(r) && GroupMoves(r, e, r') && r.g.phase != Confirmed
    ensures r'.g.phase == Confirmed <==> ConfirmsNow(r, e)
    ensures ConfirmsNow(r, e) ==> !Held(r.g)
  {
    if GroupStep(r, e).RoomOk? {
      ConfirmsIff(r, e);
    }
  }

  /** Somewhere between an unconfirmed and a confirmed state of a run is the step that confirmed. */
  lemma {:induction false} ConfirmingStep(rs: seq<Room>, es: seq<GroupEvent>, j: nat, k: nat) returns (n: nat)
    requires IsGroupRun(rs, es) && RoomInv(rs[0]) && j <= k <= |es|
    requires rs[j].g.phase != Confirmed && rs[k].g.phase == Confirmed
    ensures j <= n < k && rs[n].g.phase != Confirmed && rs[n + 1].g.phase == Confirmed
  {
    if rs[k - 1].g.phase == Confirmed {
      n := ConfirmingStep(rs, es, j, k - 1);
    } else {
      n := k - 1;
    }
  }

  /** A host who paid before the class was confirmed sees it confirmed if and only if another slip clears
      in a reviewed and approved group; and before each such step a second slip was registered. */
  lemma PaidEarlyConfirmsIff(rs: seq<Room>, es: seq<GroupEvent>, j: nat, k: nat)
    requires IsGroupRun(rs, es) && RoomInv(rs[0]) && j <= k <= |es|
    requires Held(rs[j].g) && rs[j].g.phase != Confirmed
    ensures rs[k].g.phase == Confirmed <==> exists n :: j <= n < k && ConfirmsNow(rs[n], es[n])
    ensures forall n :: j <= n < k && ConfirmsNow(rs[n], es[n]) ==> exists m :: j <= m < n && Registers(rs[m], es[m])
  {
    forall n | j <= n < k && ConfirmsNow(rs[n], es[n])
      ensures rs[k].g.phase == Confirmed && exists m :: j <= m < n && Registers(rs[m], es[m])
    {
      GroupRunKeeps(rs, es, n);
      HeldUnlessSlipWaits(rs, es, j, n);
      assert GroupMoves(rs[n], es[n], rs[n + 1]);
      MoveConfirmsIff(rs[n], es[n], rs[n + 1]);
      GroupRunEvolves(rs, es, n + 1, k);
    }
    if rs[k].g.phase == Confirmed {
      var n := ConfirmingStep(rs, es, j, k);
      GroupRunKeeps(rs, es, n);
      assert GroupMoves(rs[n], es[n], rs[n + 1]);
      MoveConfirmsIff(rs[n], es[n], rs[n + 1]);
    }
  }

  ghost predicate QuietMoves(r: Room, e: GroupEvent, r': Room) {
    GroupMoves(r, e, r') && !Registers(r, e)
  }

  /** The host's money is held by a class that is neither confirmed nor failed, or was given back by
      its failure. */
  predicate EarlyMoney(r: Room) {
    && RoomInv(r) && r.g.intent.Some?
    && (if r.g.phase == Failed then r.ledger != [] && r.g.intent.value.status == IntentStatus.Refunded
        else r.g.phase != Confirmed && r.g.intent.value.status == HeldInEscrow)
  }

  /** While the class has not failed, the money stays just as it was. */
  predicate MoneyWaits(r: Room, r': Room) {
    r'.g.phase != Failed ==> r.g.phase != Failed && r'.g.intent == r.g.intent
  }

  lemma QuietMoveWaits(r: Room, e: GroupEvent, r': Room)
    requires EarlyMoney(r) && QuietMoves(r, e, r')
    ensures EarlyMoney(r') && MoneyWaits(r, r')
  {
    if GroupStep(r, e).RoomOk? { GroupStepKeeps(r, e); }
  }

  lemma QuietMovesWait()
    ensures Preserved(QuietMoves, EarlyMoney) && StepRelates(QuietMoves, EarlyMoney, MoneyWaits)
    ensures ReflexiveTransitive(EarlyMoney, MoneyWaits)
  {
    forall r, e, r' | EarlyMoney(r) && QuietMoves(r, e, r') ensures EarlyMoney(r') && MoneyWaits(r, r') {
      QuietMoveWaits(r, e, r');
    }
  }

  /** Without a second slip the class of a host who paid early is never confirmed, the money waits untouched, and
      the failure gives it back in full. */
  lemma PaidTooEarlyNeverConfirms(rs: seq<Room>, es: seq<GroupEvent>, j: nat, k: nat)
    requires IsGroupRun(rs, es) && RoomInv(rs[0]) && j <= k <= |es|
    requires Held(rs[j].g) && rs[j].g.phase != Confirmed && rs[j].g.phase != Failed
    requires forall m :: j <= m < k ==> !Registers(rs[m], es[m])
    ensures rs[k].g.phase != Confirmed
    ensures rs[k].g.phase != Failed ==> rs[k].g.intent == rs[j].g.intent
    ensures rs[k].g.phase == Failed ==> |rs[k].ledger| == 1 && FullRefund(rs[k].g, rs[k].ledger[0])
  {
    GroupRunKeeps(rs, es, j);
    var part, steps := rs[j..k + 1], es[j..k];
    assert IsRunOf(QuietMoves, part, steps) by {
      forall n | 0 <= n < |steps| ensures QuietMoves(part[n], steps[n], part[n + 1]) {
        assert GroupMoves(rs[j + n], es[j + n], rs[j + n + 1]);
      }
    }
    QuietMovesWait();
    HoldsAlong(QuietMoves, EarlyMoney, part, steps, 0, k - j);
    RelatesAlong(QuietMoves, EarlyMoney, MoneyWaits, part, steps, 0, k - j);
  }

  /** The second slip does it: approval, another slip, and its review confirm the class, with everything
      in agreement at the end. */
  lemma SecondSlipConfirms(r: Room, now: int)
    requires RoomInv(r) && PaidUp(r) && Held(r.g) && r.g.phase == TutorReview
    ensures ApproveGroup(r, r.g.tutorUser, now).RoomOk?
    ensures var approved := ApproveGroup(r, r.g.tutorUser, now).room;
            && UploadHostSlip(approved, r.g.host).RoomOk?
            && var again := UploadHostSlip(approved, r.g.host).room;
            && !PaidUp(again) && SlipCleared(again).RoomOk?
            && SlipCleared(again).room.g.phase == Confirmed
            && RoomInv(SlipCleared(again).room) && PaidUp(SlipCleared(again).room)
  {
    var approved := ApproveGroup(r, r.g.tutorUser, now).room;
    UploadKeepsPaidUpIff(approved, r.g.host);
    SlipClearedKeeps(UploadHostSlip(approved, r.g.host).room);
  }

  /** And it costs the refund, if the group fails before the review. */
  lemma SecondSlipLosesRefund(r: Room, reason: RefundReason)
    requires RoomInv(r) && Held(r.g) && (r.g.phase == Forming || r.g.phase == TutorReview)
    ensures Fail(r, reason).ledger == [LedgerRow(r.g.id, r.g.id, r.g.price, r.g.price, 0, 0, reason)]
    ensures UploadHostSlip(r, r.g.host).RoomOk?
    ensures var after := Fail(UploadHostSlip(r, r.g.host).room, reason);
            after.ledger == [] && after.g.intent.Some? && after.g.intent.value.status == SlipFailed
  {
  }

  /** One friend is invited, accepts, and the host pays before the tutor has looked. */
  function Visit(n: nat): Room
    requires n <= 5
  {
    var empty := Gathered(0, 1, 100, 300, 2, 1_000_000_000, 0);
    var invited := empty.g.seats + [Seat(2, Invitee, Invited, None)];
    var full := empty.g.seats + [Seat(2, Invitee, Seated, Some(0))];
    var paid := [Seat(1, Host, HostPaid, Some(0)), Seat(2, Invitee, Seated, Some(0))];
    if n == 0 then empty
    else if n == 1 then Room(empty.g.(seats := invited), [])
    else if n == 2 then Room(empty.g.(seats := full, phase := TutorReview), [])
    else if n == 3 then Room(empty.g.(seats := full, phase := TutorReview, intent := Some(Intent(0, 1, 300, PendingTransfer))), [])
    else if n == 4 then Room(empty.g.(seats := full, phase := TutorReview, intent := Some(Intent(0, 1, 300, SlipUploaded))), [])
    else Room(empty.g.(seats := paid, phase := TutorReview, intent := Some(Intent(0, 1, 300, HeldInEscrow))), [])
  }

  function VisitEvent(n: nat): GroupEvent
    requires n < 5
  {
    if n == 0 then OnInvite(1, [2], 0, false)
    else if n == 1 then OnAccept(2, 0, true)
    else if n == 2 then OnOpenIntent(1)
    else if n == 3 then OnUploadSlip(1)
    else OnSlipCleared
  }

  lemma VisitFills()
    ensures GroupStep(Visit(1), VisitEvent(1)) == RoomOk(Visit(2))
  {
    var seats := Visit(1).g.seats;
    assert seats[1].student == 2;
    assert SeatOf(seats, 2) == 1;
    assert seats[1 := seats[1].(status := Seated, acceptedAt := Some(0))] == Visit(2).g.seats;
  }

  /** A run from a new group, every slip in time, to a held payment before the approval. */
  lemma PaidEarlyRun()
    ensures RoomInv(Visit(0)) && PaidUp(Visit(0))
    ensures forall n :: 0 <= n < 5 ==> GroupStep(Visit(n), VisitEvent(n)) == RoomOk(Visit(n + 1))
    ensures forall n :: 0 <= n < 5 ==> InTime(Visit(n), VisitEvent(n))
  {
    GatheredInv(0, 1, 100, 300, 2, 1_000_000_000, 0);
    VisitFills();
  }

  /** From its end the class can still be confirmed, and the refund can still be lost. */
  lemma SecondSlipAfterVisit(now: int)
    ensures Held(Visit(5).g)
    ensures SlipCleared(UploadHostSlip(ApproveGroup(Visit(5), 100, now).room, 1).room).room.g.phase == Confirmed
    ensures RejectGroup(UploadHostSlip(Visit(5), 1).room, 100).room.ledger == []
    ensures RejectGroup(Visit(5), 100).room.ledger != []
  {
    SecondSlipConfirms(Visit(5), now);
    SecondSlipLosesRefund(Visit(5), GroupRejectedByTutor);
  }

  /** A slip approved after the group failed leaves money held that no later failure gives back:
      failing again is a no-op. */
  lemma LateGroupSlipStrands(r: Room, reason: RefundReason)
    requires RoomInv(r) && r.g.phase == Failed && SlipCleared(r).RoomOk?
    ensures var after := SlipCleared(r).room;
            after.g.phase == Failed && Held(after.g) && after.ledger == r.ledger && Fail(after, reason) == after
  {
  }
}
