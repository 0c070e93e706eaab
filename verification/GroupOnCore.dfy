/** A group class seen twice, as a room and as rows of the core's tables: every step of an open room is
    a sequence of core steps on its booking, so the core's theorems cover group classes too. */
module GroupOnCore {
  import opened Basics
  import opened Bookings
  import opened BookingInvariants
  import opened BookingRuns
  import opened GroupSessions

  function RowPhase(p: Phase): GroupPhase {
    match p
    case Forming => Gathering
    case TutorReview => Gathering
    case Confirmed => GroupConfirmed
    case Failed => GroupFailed
  }

  predicate Open(g: Group) {
    g.phase == Forming || g.phase == TutorReview
  }

  /** The booking row and its intent are what the room says they are. */
  predicate Shows(db: Db, g: Group) {
    && g.id < |db.bookings| && BookingRefs(db, db.bookings[g.id])
    && var k := db.bookings[g.id];
    && k.student == g.host && db.tutors[k.tutor].user == g.tutorUser && k.amount == g.price && k.start == g.start
    && k.phase == RowPhase(g.phase) && k.status == g.booked
    && (if k.intent.Some? then g.intent == Some(db.intents[k.intent.value]) else g.intent.None?)
  }

  /** Core steps, one after the other, all of them orderly and none refused. */
  ghost predicate Leads(db: Db, es: seq<Event>, db': Db)
    decreases |es|
  {
    if es == [] then db' == db
    else Refs(db) && Orderly(db, es[0]) && Step(db, es[0]).Ok? && Leads(Step(db, es[0]).db, es[1..], db')
  }

  lemma {:induction false} LeadsKeeps(db: Db, es: seq<Event>, db': Db)
    requires Inv(db) && Leads(db, es, db')
    ensures Inv(db')
    decreases |es|
  {
    if es != [] {
      StepKeeps(db, es[0]);
      LeadsKeeps(Step(db, es[0]).db, es[1..], db');
    }
  }

  /** What the core does when the room takes the step. */
  function CoreSteps(db: Db, g: Group, e: GroupEvent, now: int): seq<Event>
    requires Shows(db, g)
  {
    var i := db.bookings[g.id].intent;
    match e
    case OnOpenIntent(user) => [DoOpenIntent(user, g.id)]
    case OnUploadSlip(user) => if i.Some? then [DoUploadSlip(user, i.value)] else []
    case OnSlipCleared =>
      if i.None? then []
      else [DoApproveSlip(i.value, now)]
           + (if g.phase == TutorReview && g.approvedAt.Some? then [DoConfirmGroup(i.value, now)] else [])
    case OnReject(_) => [DoFailGroup(g.id, GroupRejectedByTutor)]
    case OnInviteSweep(at) => if InviteExpired(g, at) then [DoFailGroup(g.id, GroupInviteExpired)] else []
    case OnReviewSweep(at) => if ReviewOverdue(g, at) then [DoFailGroup(g.id, GroupPaymentIncomplete)] else []
    case _ => []
  }

  /** The same refund, under the intent's number in the core. */
  predicate SameRefunds(mine: seq<LedgerRow>, rows: seq<LedgerRow>) {
    |mine| == |rows| && forall n :: 0 <= n < |rows| ==> rows[n] == mine[n].(intent := rows[n].intent)
  }

  ghost predicate Follows(db: Db, r: Room, es: seq<Event>, db': Db, r': Room) {
    && Leads(db, es, db')
    && Shows(db', r'.g)
    && r.ledger <= r'.ledger && db.ledger <= db'.ledger
    && SameRefunds(r'.ledger[|r.ledger|..], db'.ledger[|db.ledger|..])
  }

  /** A new group booking shows a new room. */
  lemma CreatedShows(db: Db, user: User, tutor: nat, start: int, minutes: nat, seats: nat, now: int)
    requires Inv(db) && Create(db, user, tutor, start, minutes, Some(seats), now).Ok?
    ensures var db', n := Create(db, user, tutor, start, minutes, Some(seats), now).db, |db.bookings|;
            var price := ClassTotal(db.tutors[tutor].hourlyRate, minutes, seats);
            var room := Gathered(n, user, db.tutors[tutor].user, price, seats, start, now);
            Shows(db', room.g) && RoomInv(room)
  {
    GatheredInv(|db.bookings|, user, db.tutors[tutor].user,
                ClassTotal(db.tutors[tutor].hourlyRate, minutes, seats), seats, start, now);
  }

  lemma OneStepLeads(db: Db, e: Event)
    requires Refs(db) && Orderly(db, e) && Step(db, e).Ok?
    ensures Leads(db, [e], Step(db, e).db)
  {
    assert [e][1..] == [];
  }

  lemma FailureShows(db: Db, r: Room, reason: RefundReason)
    requires Inv(db) && RoomInv(r) && Open(r.g) && Shows(db, r.g)
    ensures FailGroup(db, r.g.id, reason).Ok?
    ensures Shows(FailGroup(db, r.g.id, reason).db, Fail(r, reason).g)
  {
  }

  lemma FailureRefunds(db: Db, r: Room, reason: RefundReason)
    requires Inv(db) && RoomInv(r) && Open(r.g) && Shows(db, r.g) && FailGroup(db, r.g.id, reason).Ok?
    ensures var db', r' := FailGroup(db, r.g.id, reason).db, Fail(r, reason);
            && r.ledger <= r'.ledger && db.ledger <= db'.ledger
            && SameRefunds(r'.ledger[|r.ledger|..], db'.ledger[|db.ledger|..])
  {
  }

  lemma FailureFollows(db: Db, r: Room, reason: RefundReason)
    requires Inv(db) && RoomInv(r) && Open(r.g) && Shows(db, r.g)
    ensures FailGroup(db, r.g.id, reason).Ok?
    ensures Follows(db, r, [DoFailGroup(r.g.id, reason)], FailGroup(db, r.g.id, reason).db, Fail(r, reason))
  {
    FailureShows(db, r, reason);
    FailureRefunds(db, r, reason);
    OneStepLeads(db, DoFailGroup(r.g.id, reason));
  }

  lemma UploadFollows(db: Db, r: Room, user: User)
    requires Inv(db) && RoomInv(r) && Open(r.g) && Shows(db, r.g) && UploadHostSlip(r, user).RoomOk?
    ensures var i := db.bookings[r.g.id].intent.value;
            && UploadSlip(db, user, i).Ok?
            && Follows(db, r, [DoUploadSlip(user, i)], UploadSlip(db, user, i).db, UploadHostSlip(r, user).room)
  {
    var i := db.bookings[r.g.id].intent.value;
    assert BookingShape(db, r.g.id) && Conserved(db, i);
    OneStepLeads(db, DoUploadSlip(user, i));
  }

  lemma ApprovalShows(db: Db, r: Room, now: int)
    requires Inv(db) && RoomInv(r) && Open(r.g) && Shows(db, r.g) && SlipCleared(r).RoomOk?
    ensures var i := db.bookings[r.g.id].intent.value;
            && ApproveSlip(db, i, now).Ok?
            && var db' := ApproveSlip(db, i, now).db;
            && Inv(db') && db'.ledger == db.ledger && db'.bookings == db.bookings && db'.tutors == db.tutors
            && db'.intents == db.intents[i := db.intents[i].(status := HeldInEscrow)]
            && Leads(db, [DoApproveSlip(i, now)], db')
  {
    var i := db.bookings[r.g.id].intent.value;
    assert BookingShape(db, r.g.id);
    StepKeeps(db, DoApproveSlip(i, now));
    OneStepLeads(db, DoApproveSlip(i, now));
  }

  lemma ConfirmationFollows(db: Db, r: Room, now: int)
    requires Inv(db) && RoomInv(r) && Shows(db, r.g) && SlipCleared(r).RoomOk?
    requires r.g.phase == TutorReview && r.g.approvedAt.Some?
    ensures var i := db.bookings[r.g.id].intent.value;
            ApproveSlip(db, i, now).Ok? && Inv(ApproveSlip(db, i, now).db)
            && ConfirmGroup(ApproveSlip(db, i, now).db, i, now).Ok?
            && Follows(db, r, CoreSteps(db, r.g, OnSlipCleared, now),
                       ConfirmGroup(ApproveSlip(db, i, now).db, i, now).db, SlipCleared(r).room)
  {
    var i := db.bookings[r.g.id].intent.value;
    ApprovalShows(db, r, now);
    var db' := ApproveSlip(db, i, now).db;
    var both := [DoApproveSlip(i, now), DoConfirmGroup(i, now)];
    assert BookingShape(db, r.g.id);
    OneStepLeads(db', DoConfirmGroup(i, now));
    assert both[1..] == [DoConfirmGroup(i, now)];
    assert CoreSteps(db, r.g, OnSlipCleared, now) == both;
  }

  lemma ClearedFollows(db: Db, r: Room, now: int) returns (db': Db)
    requires Inv(db) && RoomInv(r) && Open(r.g) && Shows(db, r.g) && SlipCleared(r).RoomOk?
    ensures Follows(db, r, CoreSteps(db, r.g, OnSlipCleared, now), db', SlipCleared(r).room)
  {
    var i := db.bookings[r.g.id].intent.value;
    ApprovalShows(db, r, now);
    db' := ApproveSlip(db, i, now).db;
    if r.g.phase == TutorReview && r.g.approvedAt.Some? {
      ConfirmationFollows(db, r, now);
      db' := ConfirmGroup(db', i, now).db;
    } else {
      assert CoreSteps(db, r.g, OnSlipCleared, now) == [DoApproveSlip(i, now)];
    }
  }

  lemma FailingStepFollows(db: Db, r: Room, e: GroupEvent, now: int) returns (db': Db)
    requires Inv(db) && RoomInv(r) && Open(r.g) && Shows(db, r.g) && GroupStep(r, e).RoomOk?
    requires e.OnReject? || e.OnInviteSweep? || e.OnReviewSweep?
    ensures Follows(db, r, CoreSteps(db, r.g, e, now), db', GroupStep(r, e).room)
  {
    db' := db;
    var es := CoreSteps(db, r.g, e, now);
    if es != [] {
      FailureFollows(db, r, es[0].reason);
      db' := FailGroup(db, r.g.id, es[0].reason).db;
    }
  }

  lemma PayingStepFollows(db: Db, r: Room, e: GroupEvent, now: int) returns (db': Db)
    requires Inv(db) && RoomInv(r) && Open(r.g) && Shows(db, r.g) && GroupStep(r, e).RoomOk?
    requires e.OnOpenIntent? || e.OnUploadSlip? || e.OnSlipCleared?
    ensures Follows(db, r, CoreSteps(db, r.g, e, now), db', GroupStep(r, e).room)
  {
    if e.OnOpenIntent? {
      db' := OpenIntent(db, e.user, r.g.id).db;
    } else if e.OnUploadSlip? {
      UploadFollows(db, r, e.user);
      db' := UploadSlip(db, e.user, db.bookings[r.g.id].intent.value).db;
    } else {
      db' := ClearedFollows(db, r, now);
    }
  }

  lemma StepFollows(db: Db, r: Room, e: GroupEvent, now: int) returns (db': Db)
    requires Inv(db) && RoomInv(r) && Open(r.g) && Shows(db, r.g) && GroupStep(r, e).RoomOk?
    ensures Follows(db, r, CoreSteps(db, r.g, e, now), db', GroupStep(r, e).room)
  {
    if e.OnOpenIntent? || e.OnUploadSlip? || e.OnSlipCleared? {
      db' := PayingStepFollows(db, r, e, now);
    } else if e.OnReject? || e.OnInviteSweep? || e.OnReviewSweep? {
      db' := FailingStepFollows(db, r, e, now);
    } else {
      db' := db;
    }
  }

  /** Every step of an open room is a sequence of orderly core steps that keeps the two views in step,
      refunds included; so the core's invariant holds after it. */
  lemma GroupStepFollows(db: Db, r: Room, e: GroupEvent, now: int) returns (db': Db)
    requires Inv(db) && RoomInv(r) && Open(r.g) && Shows(db, r.g) && GroupStep(r, e).RoomOk?
    ensures Follows(db, r, CoreSteps(db, r.g, e, now), db', GroupStep(r, e).room)
    ensures Inv(db')
  {
    db' := StepFollows(db, r, e, now);
    LeadsKeeps(db, CoreSteps(db, r.g, e, now), db');
  }
}
