/** The two steps about slips, and exactly when each keeps the core's invariant. */
module SlipSteps {
  import opened Basics
  import opened Bookings
  import opened BookingInvariants

  // ---- the review ------------------------------------------------------------------------------------

  /** Nobody else holds the booking's own class time, on either calendar. */
  ghost predicate SlotFree(db: Db, b: nat)
    requires Refs(db) && b < |db.bookings|
  {
    forall a: nat, x, u :: a != b && Reserves(db, a, x) && Involves(db, a, u) && Involves(db, b, u)
      ==> !Overlap(x, OwnSlot(db.bookings[b]))
  }

  /** A cleared slip makes the booking hold its own class time, and changes nobody else's. */
  lemma LateSlipReserves(db: Db, i: nat, now: int)
    requires Refs(db) && i < |db.intents| && db.bookings[db.intents[i].booking].phase == OneOnOne
    ensures Refs(Cleared(db, i, now))
    ensures var db', b := Cleared(db, i, now), db.intents[i].booking;
            && (forall a: nat, x :: Reserves(db', a, x) <==> Reserves(db, a, x) || (a == b && x == OwnSlot(db.bookings[b])))
            && (forall a: nat, u :: a < |db.bookings| ==> (Involves(db', a, u) <==> Involves(db, a, u)))
  {
    var db' := Cleared(db, i, now);
    forall a | 0 <= a < |db'.bookings| ensures BookingRefs(db', db'.bookings[a]) {
      assert BookingRefs(db, db.bookings[a]);
    }
  }

  lemma SlotDecides(db: Db, db': Db, b: nat)
    requires Refs(db) && Refs(db') && NoDoubleBooking(db) && b < |db.bookings| == |db'.bookings|
    requires forall a: nat, x :: Reserves(db', a, x) <==> Reserves(db, a, x) || (a == b && x == OwnSlot(db.bookings[b]))
    requires forall a: nat, u :: a < |db.bookings| ==> (Involves(db', a, u) <==> Involves(db, a, u))
    ensures NoDoubleBooking(db') <==> SlotFree(db, b)
  {
    var own := OwnSlot(db.bookings[b]);
    assert Reserves(db', b, own);
    if NoDoubleBooking(db') {
      forall a: nat, x, u | a != b && Reserves(db, a, x) && Involves(db, a, u) && Involves(db, b, u)
        ensures !Overlap(x, own)
      {
        assert Reserves(db', a, x) && Involves(db', a, u) && Involves(db', b, u);
      }
    }
  }

  /** Clearing the slip of a one-on-one booking, whatever that booking's and the intent's status,
      double-books somebody exactly when the booking's time has been taken. */
  lemma LateSlipDoubleBooksIff(db: Db, i: nat, now: int)
    requires Refs(db) && NoDoubleBooking(db) && i < |db.intents|
    requires db.bookings[db.intents[i].booking].phase == OneOnOne
    ensures Refs(Cleared(db, i, now))
    ensures NoDoubleBooking(Cleared(db, i, now)) <==> SlotFree(db, db.intents[i].booking)
  {
    LateSlipReserves(db, i, now);
    SlotDecides(db, Cleared(db, i, now), db.intents[i].booking);
  }

  /** A free answer from the guard, asked for both sides, is enough. */
  lemma GuardAnswersLateSlip(db: Db, b: nat)
    requires Inv(db) && b < |db.bookings|
    requires GuardBoth(db, db.bookings[b].student, db.tutors[db.bookings[b].tutor].user,
                       OwnSlot(db.bookings[b]), Some(b)).None?
    ensures SlotFree(db, b)
  {
    GuardFree(db, db.bookings[b].student, OwnSlot(db.bookings[b]), Some(b));
    GuardFree(db, db.tutors[db.bookings[b].tutor].user, OwnSlot(db.bookings[b]), Some(b));
  }

  /** Links and money: what the approval may find is a booking that was never postponed. */
  lemma ApprovedLinkedIff(db: Db, i: nat, now: int)
    requires Linked(db) && Refs(db) && ApproveSlip(db, i, now).Ok?
    ensures Linked(ApproveSlip(db, i, now).db)
            <==> (db.bookings[db.intents[i].booking].phase == OneOnOne ==> db.bookings[db.intents[i].booking].request.None?)
  {
    var db', b := ApproveSlip(db, i, now).db, db.intents[i].booking;
    assert BookingShape(db, b) && IntentShape(db, i);
    assert Linked(db') ==> BookingShape(db', b);
    if db.bookings[b].phase == OneOnOne ==> db.bookings[b].request.None? {
      forall a | 0 <= a < |db'.bookings| ensures BookingShape(db', a) { assert BookingShape(db, a); }
      forall r | 0 <= r < |db'.requests| ensures RequestShape(db', r) { assert RequestShape(db, r); }
      forall x | 0 <= x < |db'.intents| ensures IntentShape(db', x) { assert IntentShape(db, x); }
    }
  }

  /** What a review must find for the invariant to survive it. */
  ghost predicate ReviewIsSafe(db: Db, i: nat)
    requires Refs(db) && i < |db.intents|
  {
    var b := db.intents[i].booking;
    db.bookings[b].phase == OneOnOne ==> db.bookings[b].request.None? && SlotFree(db, b)
  }

  /** Approving a slip, whatever the booking's state, keeps the whole invariant exactly when it was for a
      group, or for a booking that never had a postpone request and whose time nobody else holds. */
  lemma ReviewKeepsInvIff(db: Db, i: nat, now: int)
    requires Inv(db) && ApproveSlip(db, i, now).Ok?
    ensures Inv(ApproveSlip(db, i, now).db) <==> ReviewIsSafe(db, i)
  {
    var db', b := ApproveSlip(db, i, now).db, db.intents[i].booking;
    ApprovedLinkedIff(db, i, now);
    if db.bookings[b].phase == OneOnOne {
      LateSlipDoubleBooksIff(db, i, now);
    } else {
      LinkedRefs(db');
      ShrinkKeepsNoDoubleBooking(db, db');
    }
    forall x | 0 <= x < |db'.intents| ensures Conserved(db', x) { assert Conserved(db, x); }
    forall t | 0 <= t < |db'.tutors| ensures Defects(db', t) == Defects(db, t) {}
  }

  // ---- the registration ----------------------------------------------------------------------------------

  /** The booking counts on money being in escrow. */
  predicate CountsOnEscrow(db: Db, b: nat)
    requires b < |db.bookings| && BookingRefs(db, db.bookings[b])
  {
    db.bookings[b].status == Paid || StatusOfRequest(db, db.bookings[b]) == Some(Negotiating)
  }

  /** Registering a slip, whatever the intent's state, keeps the invariant exactly when the class does
      not count on that intent's escrow and no ledger row has settled it. */
  lemma UploadKeepsInvIff(db: Db, user: User, i: nat)
    requires Inv(db) && UploadSlip(db, user, i).Ok?
    ensures Inv(UploadSlip(db, user, i).db)
            <==> !CountsOnEscrow(db, db.intents[i].booking) && RowsFor(db.ledger, i) == 0
  {
    var db', b := UploadSlip(db, user, i).db, db.intents[i].booking;
    assert IntentShape(db, i) && BookingShape(db, b) && Conserved(db, i);
    assert Inv(db') ==> BookingShape(db', b) && Conserved(db', i);
    if !CountsOnEscrow(db, b) && RowsFor(db.ledger, i) == 0 {
      forall a | 0 <= a < |db'.bookings| ensures BookingShape(db', a) { assert BookingShape(db, a) && IntentShape(db, i); }
      forall r | 0 <= r < |db'.requests| ensures RequestShape(db', r) { assert RequestShape(db, r); }
      forall x | 0 <= x < |db'.intents| ensures IntentShape(db', x) { assert IntentShape(db, x); }
      LinkedRefs(db');
      ShrinkKeepsNoDoubleBooking(db, db');
      forall x | 0 <= x < |db'.intents| ensures Conserved(db', x) { assert Conserved(db, x); }
      forall t | 0 <= t < |db'.tutors| ensures Defects(db', t) == Defects(db, t) {}
    }
  }

  // ---- a group host's refund ------------------------------------------------------------------------------

  /** If the group failed now, its host would get the price back by one row. */
  predicate WouldRefund(db: Db, b: nat, reason: RefundReason)
    requires Refs(db) && b < |db.bookings|
  {
    var k := db.bookings[b];
    && FailGroup(db, b, reason).Ok? && k.intent.Some?
    && FailGroup(db, b, reason).db.ledger == db.ledger + [LedgerRow(k.intent.value, b, k.amount, k.amount, 0, 0, reason)]
  }

  lemma GroupRefundIff(db: Db, b: nat, reason: RefundReason)
    requires Inv(db) && b < |db.bookings| && db.bookings[b].phase == Gathering
    ensures WouldRefund(db, b, reason) <==> HeldGroup(db, b)
    ensures !WouldRefund(db, b, reason) ==> FailGroup(db, b, reason).db.ledger == db.ledger
  {
    if HeldGroup(db, b) {
      var i := db.bookings[b].intent.value;
      assert BookingShape(db, b) && Conserved(db, i);
      NoRowsNoShares(db.ledger, i);
    }
  }

  /** For a gathering group the invariant survives every registration, but the refund does not: it is
      lost exactly if the money was already held. */
  lemma UploadCostsRefundIff(db: Db, user: User, i: nat, reason: RefundReason)
    requires Inv(db) && UploadSlip(db, user, i).Ok? && db.bookings[db.intents[i].booking].phase == Gathering
    ensures var db', b := UploadSlip(db, user, i).db, db.intents[i].booking;
            && Inv(db')
            && !WouldRefund(db', b, reason)
            && (WouldRefund(db, b, reason) <==> db.intents[i].status == HeldInEscrow)
  {
    var b := db.intents[i].booking;
    assert IntentShape(db, i) && BookingShape(db, b) && Conserved(db, i);
    UploadKeepsInvIff(db, user, i);
    GroupRefundIff(db, b, reason);
    GroupRefundIff(UploadSlip(db, user, i).db, b, reason);
  }
}
