/** Money that the daily job has released to the tutor: what keeps it released, and how it comes back. */
module Payouts {
  import opened Basics
  import opened RefundPolicy
  import opened Runs
  import opened Bookings
  import opened BookingInvariants
  import opened SlipSteps
  import opened BookingRuns
  import opened AllRuns
  import opened Consents

  ghost predicate Released(db: Db, i: nat) {
    Inv(db) && i < |db.intents| && db.intents[i].status == ReleasedForPayout
  }

  /** The payer registers one more slip for the intent. */
  predicate SlipAgain(db: Db, e: Event, i: nat) {
    e.DoUploadSlip? && e.i == i && UploadSlip(db, e.user, i).Ok?
  }

  /** The intent keeps its state and its amount. */
  predicate SamePayout(db: Db, db': Db, i: nat) {
    i < |db.intents| && i < |db'.intents|
    && db'.intents[i].status == db.intents[i].status && db'.intents[i].amount == db.intents[i].amount
  }

  lemma StepKeepsPayout(db: Db, e: Event, i: nat)
    requires Released(db, i) && Step(db, e).Ok? && !SlipAgain(db, e, i)
    ensures SamePayout(db, Step(db, e).db, i)
  {
    if OnBooking(e) {
      OnBookingRestates(db, e);
    } else {
      match e
      case DoConfirm(user, b) => ConfirmKeeps(db, user, b);
      case DoCancelPostpone(user, b) =>
        CancelPostponeKeeps(db, user, b);
        NegotiationIsFunded(db, b);
      case DoTimeout(r, engaged) =>
        TimeoutKeeps(db, r, engaged);
        if r < |db.requests| && db.requests[r].status == Negotiating {
          NegotiationIsFunded(db, db.requests[r].booking);
        }
      case _ =>
    }
  }

  /** In any orderly run released money stays released, with the same amount, until another slip is registered. */
  lemma ReleasedUntilASlip(dbs: seq<Db>, es: seq<Event>, j: nat, k: nat, i: nat)
    requires IsRun(dbs, es) && j <= k <= |es| && Released(dbs[j], i)
    requires forall m :: j <= m < k ==> !SlipAgain(dbs[m], es[m], i)
    ensures Released(dbs[k], i) && SamePayout(dbs[j], dbs[k], i)
    decreases k - j
  {
    if j < k {
      assert Moves(dbs[j], es[j], dbs[j + 1]);
      if Step(dbs[j], es[j]).Ok? {
        StepKeeps(dbs[j], es[j]);
        StepKeepsPayout(dbs[j], es[j], i);
      }
      ReleasedUntilASlip(dbs, es, j + 1, k, i);
    }
  }

  /** The student of a completed class registers another slip for its released payment, the slip is approved, and
      the window passes: three orderly steps after which the same payment has been released twice. */
  lemma SecondPayout(db: Db, b: nat, now: int)
    requires Inv(db) && b < |db.bookings| && db.bookings[b].status == Completed && db.bookings[b].phase == OneOnOne
    requires db.bookings[b].request.None? && db.bookings[b].intent.Some? && SlotFree(db, b)
    requires Released(db, db.bookings[b].intent.value)
    ensures var i := db.bookings[b].intent.value;
            var upload := UploadSlip(db, db.intents[i].payer, i);
            && Orderly(db, DoUploadSlip(db.intents[i].payer, i)) && upload.Ok?
            && Refs(upload.db) && upload.db.intents[i].status == SlipUploaded
            && var approval := ApproveSlip(upload.db, i, now);
            && Orderly(upload.db, DoApproveSlip(i, now)) && approval.Ok? && Refs(approval.db)
            && approval.db.bookings[b].status == Paid
            && var release := ReleaseForPayout(approval.db, b, now + DAY);
            && release.Ok? && release.db.bookings[b].status == Completed && release.db.intents == db.intents
  {
    var i := db.bookings[b].intent.value;
    assert BookingShape(db, b) && Conserved(db, i);
    UploadKeepsInvIff(db, db.intents[i].payer, i);
    var registered := UploadSlip(db, db.intents[i].payer, i).db;
    forall a: nat, x | Reserves(registered, a, x) ensures Reserves(db, a, x) {}
    forall a, u | 0 <= a < |db.bookings| ensures Involves(registered, a, u) <==> Involves(db, a, u) {}
    assert SlotFree(registered, b);
    ReviewKeepsInvIff(registered, i, now);
  }

  // ---- a day to report ----------------------------------------------------------------------------------

  /** At instant `w` less a day a slip of the class is approved, or its group confirmed. */
  ghost predicate WindowSet(db: Db, e: Event, b: nat, w: int) {
    && Refs(db) && (e.DoApproveSlip? || e.DoConfirmGroup?) && Step(db, e).Ok?
    && db.intents[e.i].booking == b && w == e.now + 86_400_000
  }

  predicate HasWindow(db: Db, b: nat, w: int) {
    b < |db.bookings| && db.bookings[b].reportEnds == Some(w)
  }

  lemma WindowBefore(db: Db, e: Event, b: nat, w: int)
    requires Inv(db) && Step(db, e).Ok? && HasWindow(Step(db, e).db, b, w)
    ensures WindowSet(db, e, b, w) || HasWindow(db, b, w)
  {
    if b >= |db.bookings| {
      NewRow(db, e, b);
    } else if !MayOpen(Service(e)) {
      OtherWindows(db, Service(e));
    }
  }

  lemma WindowWasSet(dbs: seq<Db>, es: seq<Event>, k: nat, b: nat, w: int)
    requires IsRun(dbs, es) && Inv(dbs[0]) && dbs[0].bookings == [] && k <= |es| && HasWindow(dbs[k], b, w)
    ensures exists m :: 0 <= m < k && WindowSet(dbs[m], es[m], b, w)
  {
    var bad, culprit := (db: Db) => HasWindow(db, b, w), (db: Db, e: Event, later: Db) => WindowSet(db, e, b, w);
    MovesEvolve();
    forall db, e, db' | Inv(db) && Moves(db, e, db') && bad(db') ensures culprit(db, e, db') || bad(db) {
      if Step(db, e).Ok? { WindowBefore(db, e, b, w); }
    }
    TracedBack(Moves, Inv, bad, culprit, dbs, es, 0, k);
  }

  /** The daily job completes a class, and releases its money, only a day or more after its slip was approved or its
      group confirmed, and never a class that has been reported meanwhile. */
  lemma ReleasedAfterADay(dbs: seq<Db>, es: seq<Event>, k: nat, b: nat, now: int)
    requires IsRun(dbs, es) && Inv(dbs[0]) && dbs[0].bookings == [] && k < |es| && Refs(dbs[k])
    requires ReleaseForPayout(dbs[k], b, now).Ok? && ReleaseForPayout(dbs[k], b, now).db != dbs[k]
    ensures dbs[k].bookings[b].status == Paid
    ensures exists m, w :: 0 <= m < k && WindowSet(dbs[m], es[m], b, w) && w <= now
  {
    WindowWasSet(dbs, es, k, b, dbs[k].bookings[b].reportEnds.value);
  }

  // ---- where held money comes from ------------------------------------------------------------------------

  /** The payer registers a slip for intent `i`. */
  ghost predicate PayerRegisters(db: Db, e: Event, i: nat) {
    Refs(db) && i < |db.intents| && e == DoUploadSlip(db.intents[i].payer, i) && Step(db, e).Ok?
  }

  ghost predicate FailsGroupOf(db: Db, e: Event, i: nat) {
    && Refs(db) && e.DoFailGroup? && Step(db, e).Ok? && db.bookings[e.b].intent == Some(i)
  }

  ghost predicate Approves(db: Db, e: Event, i: nat) {
    Refs(db) && e.DoApproveSlip? && e.i == i && Step(db, e).Ok?
  }

  predicate Waits(db: Db, i: nat) {
    i < |db.intents| && db.intents[i].status in {SlipUploaded, Verifying, SlipFailed}
  }

  predicate InHand(db: Db, i: nat) {
    i < |db.intents| && db.intents[i].status == HeldInEscrow
  }

  /** One step, seen from one intent: it waits for a review only once its payer has registered a slip or its group has
      failed, and is held only once approved. */
  ghost predicate IntentSteps(db: Db, e: Event, db': Db, i: nat) {
    && (Waits(db', i) ==> Waits(db, i) || PayerRegisters(db, e, i) || FailsGroupOf(db, e, i))
    && (InHand(db', i) ==> InHand(db, i) || Approves(db, e, i))
  }

  lemma SettleSteps(db: Db, b: nat, outcome: Outcome, e: Event, i: nat)
    requires Inv(db) && OpenNegotiation(db, b)
    ensures IntentSteps(db, e, Settle(db, b, outcome), i)
  {
  }

  lemma NegotiationSteps(db: Db, e: Event, i: nat)
    requires Inv(db) && Step(db, e).Ok?
    requires e.DoInitiate? || e.DoPropose? || e.DoConfirm? || e.DoCancelPostpone? || e.DoTimeout?
    ensures IntentSteps(db, e, Step(db, e).db, i)
  {
    match e
    case DoConfirm(user, b) => ConfirmKeeps(db, user, b);
    case DoCancelPostpone(user, b) =>
      CancelPostponeKeeps(db, user, b);
      SettleSteps(db, b, CancelOutcome(db.requests[db.bookings[b].request.value].role), e, i);
    case DoTimeout(r, engaged) =>
      TimeoutKeeps(db, r, engaged);
      if r < |db.requests| && db.requests[r].status == Negotiating {
        SettleSteps(db, db.requests[r].booking, TimeoutOutcome(db.requests[r].role, engaged), e, i);
      }
    case _ =>
  }

  lemma PaymentSteps(db: Db, e: Event, i: nat)
    requires Inv(db) && Step(db, e).Ok?
    requires e.DoOpenIntent? || e.DoUploadSlip? || e.DoApproveSlip? || e.DoConfirmGroup? || e.DoFailGroup?
    ensures IntentSteps(db, e, Step(db, e).db, i)
  {
  }

  lemma EveryIntentSteps(db: Db, e: Event, i: nat)
    requires Inv(db) && Step(db, e).Ok?
    ensures IntentSteps(db, e, Step(db, e).db, i)
  {
    if e.DoOpenIntent? || e.DoUploadSlip? || e.DoApproveSlip? || e.DoConfirmGroup? || e.DoFailGroup? {
      PaymentSteps(db, e, i);
    } else if e.DoInitiate? || e.DoPropose? || e.DoConfirm? || e.DoCancelPostpone? || e.DoTimeout? {
      NegotiationSteps(db, e, i);
    }
  }

  lemma ApprovedBefore(dbs: seq<Db>, es: seq<Event>, k: nat, i: nat)
    requires IsRun(dbs, es) && Inv(dbs[0]) && dbs[0].intents == [] && k <= |es| && InHand(dbs[k], i)
    ensures exists m :: 0 <= m < k && Approves(dbs[m], es[m], i)
  {
    var bad, culprit := (db: Db) => InHand(db, i), (db: Db, e: Event, later: Db) => Approves(db, e, i);
    MovesEvolve();
    forall db, e, db' | Inv(db) && Moves(db, e, db') && bad(db') ensures culprit(db, e, db') || bad(db) {
      if Step(db, e).Ok? { EveryIntentSteps(db, e, i); }
    }
    TracedBack(Moves, Inv, bad, culprit, dbs, es, 0, k);
  }

  lemma RegisteredBefore(dbs: seq<Db>, es: seq<Event>, k: nat, i: nat)
    requires IsRun(dbs, es) && Inv(dbs[0]) && dbs[0].intents == [] && k <= |es| && Waits(dbs[k], i)
    ensures exists m :: 0 <= m < k && (PayerRegisters(dbs[m], es[m], i) || FailsGroupOf(dbs[m], es[m], i))
  {
    var bad := (db: Db) => Waits(db, i);
    var culprit := (db: Db, e: Event, later: Db) => PayerRegisters(db, e, i) || FailsGroupOf(db, e, i);
    MovesEvolve();
    forall db, e, db' | Inv(db) && Moves(db, e, db') && bad(db') ensures culprit(db, e, db') || bad(db) {
      if Step(db, e).Ok? { EveryIntentSteps(db, e, i); }
    }
    TracedBack(Moves, Inv, bad, culprit, dbs, es, 0, k);
  }

  /** Money in escrow was approved, after its own payer had registered a slip; a failed group is the one exception:
      its failure alone puts the host's payment up for review. */
  lemma HeldMoneyWasPaid(dbs: seq<Db>, es: seq<Event>, k: nat, i: nat) returns (slip: nat, review: nat)
    requires IsRun(dbs, es) && Inv(dbs[0]) && dbs[0].intents == [] && k <= |es| && InHand(dbs[k], i)
    ensures slip < review < k && Approves(dbs[review], es[review], i)
    ensures PayerRegisters(dbs[slip], es[slip], i) || FailsGroupOf(dbs[slip], es[slip], i)
  {
    ApprovedBefore(dbs, es, k, i);
    review :| 0 <= review < k && Approves(dbs[review], es[review], i);
    RegisteredBefore(dbs, es, review, i);
    slip :| 0 <= slip < review && (PayerRegisters(dbs[slip], es[slip], i) || FailsGroupOf(dbs[slip], es[slip], i));
  }

  /** The exception is real: a payment for which no slip was ever registered is held after its group has failed and an
      administrator has approved it. */
  lemma HeldWithoutASlip(db: Db, b: nat, reason: RefundReason, now: int)
    requires Inv(db) && b < |db.bookings| && db.bookings[b].phase == Gathering && db.bookings[b].intent.Some?
    requires BookingRefs(db, db.bookings[b]) && db.intents[db.bookings[b].intent.value].status == PendingTransfer
    ensures var i, failed := db.bookings[b].intent.value, FailGroup(db, b, reason);
            && failed.Ok? && Refs(failed.db) && ApproveSlip(failed.db, i, now).Ok?
            && InHand(ApproveSlip(failed.db, i, now).db, i) && ApproveSlip(failed.db, i, now).db.ledger == db.ledger
  {
    FailGroupKeeps(db, b, reason);
  }
}
