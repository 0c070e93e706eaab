/** Runs in which slips, reviews and automatic verdicts may come at any time. */
module AllRuns {
  import opened Basics
  import opened RefundPolicy
  import opened Runs
  import opened Bookings
  import opened BookingRuns

  /** A service step, or the answer of the automatic verifier to an upload of some earlier time. */
  datatype Act = Service(e: Event) | Verdict(i: nat, verified: bool, now: int)

  /** The verdict is written whatever the intent's state is by now. */
  function GiveVerdict(db: Db, i: nat, verified: bool, now: int): Result
    requires Refs(db)
  {
    if i >= |db.intents| then Refused(NotFound)
    else if verified then Ok(Cleared(db, i, now))
    else Ok(db.(intents := db.intents[i := db.intents[i].(status := SlipFailed)]))
  }

  ghost function ActStep(db: Db, a: Act): Result
    requires Refs(db)
  {
    match a
    case Service(e) => Step(db, e)
    case Verdict(i, verified, now) => GiveVerdict(db, i, verified, now)
  }

  ghost predicate AnyMoves(db: Db, a: Act, db': Db) {
    Refs(db) && db' == if ActStep(db, a).Ok? then ActStep(db, a).db else db
  }

  ghost predicate IsAnyRun(dbs: seq<Db>, acts: seq<Act>) {
    IsRunOf(AnyMoves, dbs, acts)
  }

  /** The act clears a slip of the booking: by an approval or by a positive verdict. */
  predicate Clears(db: Db, a: Act, b: nat)
    requires Refs(db)
  {
    match a
    case Service(DoApproveSlip(i, now)) => ApproveSlip(db, i, now).Ok? && db.intents[i].booking == b
    case Verdict(i, verified, _) => i < |db.intents| && verified && db.intents[i].booking == b
    case _ => false
  }

  /** The act opens a report window on the booking: a one-on-one slip cleared, or a group confirmed. */
  predicate OpensWindow(db: Db, a: Act, b: nat)
    requires Refs(db) && b < |db.bookings|
  {
    match a
    case Service(DoConfirmGroup(i, now)) => ConfirmGroup(db, i, now).Ok? && db.intents[i].booking == b
    case _ => Clears(db, a, b) && db.bookings[b].phase == OneOnOne
  }

  /** The other acts keep windows as they are. */
  predicate MayOpen(a: Act) {
    a.Verdict? || a.e.DoApproveSlip? || a.e.DoConfirmGroup?
  }

  // ---- one act ---------------------------------------------------------------------------------------

  /** Some original was moved to booking `c`. */
  predicate IsClone(bookings: seq<Booking>, c: nat) {
    exists a :: 0 <= a < |bookings| && bookings[a].movedTo == Some(c)
  }

  /** Keys stay sound, rows stay, no report window is opened or closed, and nothing becomes paid but a clone. */
  ghost predicate SameWindows(db: Db, db': Db) {
    && Refs(db') && |db.bookings| <= |db'.bookings|
    && (forall b :: 0 <= b < |db.bookings| ==> db'.bookings[b].reportEnds == db.bookings[b].reportEnds)
    && (forall b :: 0 <= b < |db'.bookings| && db'.bookings[b].status == Paid ==>
          if b < |db.bookings| then db.bookings[b].status == Paid else IsClone(db'.bookings, b))
  }

  lemma SettleWindows(db: Db, b: nat, outcome: Outcome)
    requires Refs(db) && b < |db.bookings| && db.bookings[b].request.Some? && db.bookings[b].intent.Some?
    ensures SameWindows(db, Settle(db, b, outcome))
  {
  }

  lemma AgreeWindows(db: Db, b: nat)
    requires Refs(db) && b < |db.bookings| && db.bookings[b].request.Some? && db.bookings[b].intent.Some?
    requires db.requests[db.bookings[b].request.value].proposed.Some?
    ensures SameWindows(db, Agree(db, b))
  {
    assert BookingRefs(db, db.bookings[b]);
    assert Agree(db, b).bookings[b].movedTo == Some(|db.bookings|);
  }

  lemma NegotiationWindows(db: Db, e: Event)
    requires Refs(db) && Step(db, e).Ok?
    requires e.DoInitiate? || e.DoPropose? || e.DoConfirm? || e.DoCancelPostpone? || e.DoTimeout?
    ensures SameWindows(db, Step(db, e).db)
  {
    match e
    case DoConfirm(_, b) => AgreeWindows(db, b);
    case DoCancelPostpone(_, b) =>
      SettleWindows(db, b, CancelOutcome(db.requests[db.bookings[b].request.value].role));
    case DoTimeout(r, engaged) =>
      if Step(db, e).db != db {
        SettleWindows(db, db.requests[r].booking, TimeoutOutcome(db.requests[r].role, engaged));
      }
    case _ =>
  }

  lemma AnswerWindows(db: Db, e: Event)
    requires Refs(db) && Step(db, e).Ok? && (OnBooking(e) || e.DoCreate? || e.DoSetRules?)
    ensures SameWindows(db, Step(db, e).db)
  {
  }

  lemma PaymentWindows(db: Db, e: Event)
    requires Refs(db) && Step(db, e).Ok? && (e.DoOpenIntent? || e.DoUploadSlip? || e.DoFailGroup?)
    ensures SameWindows(db, Step(db, e).db)
  {
  }

  lemma OpeningWindow(db: Db, a: Act, b: nat)
    requires Refs(db) && ActStep(db, a).Ok? && b < |db.bookings| && MayOpen(a)
    ensures var db' := ActStep(db, a).db;
            && Refs(db') && |db'.bookings| == |db.bookings|
            && (db'.bookings[b].reportEnds.Some? <==> db.bookings[b].reportEnds.Some? || OpensWindow(db, a, b))
            && (db'.bookings[b].status == Paid ==> db.bookings[b].status == Paid || OpensWindow(db, a, b))
  {
  }

  lemma OtherWindows(db: Db, a: Act)
    requires Refs(db) && ActStep(db, a).Ok? && !MayOpen(a)
    ensures SameWindows(db, ActStep(db, a).db)
  {
    if OnBooking(a.e) || a.e.DoCreate? || a.e.DoSetRules? {
      AnswerWindows(db, a.e);
    } else if a.e.DoOpenIntent? || a.e.DoUploadSlip? || a.e.DoFailGroup? {
      PaymentWindows(db, a.e);
    } else {
      NegotiationWindows(db, a.e);
    }
  }

  lemma ActWindow(db: Db, a: Act, b: nat)
    requires Refs(db) && ActStep(db, a).Ok? && b < |db.bookings|
    ensures var db' := ActStep(db, a).db;
            && Refs(db') && b < |db'.bookings|
            && (db'.bookings[b].reportEnds.Some? <==> db.bookings[b].reportEnds.Some? || OpensWindow(db, a, b))
            && (db'.bookings[b].status == Paid ==> db.bookings[b].status == Paid || OpensWindow(db, a, b))
  {
    if MayOpen(a) {
      OpeningWindow(db, a, b);
    } else {
      OtherWindows(db, a);
    }
  }

  // ---- runs ------------------------------------------------------------------------------------------

  ghost predicate HasRow(db: Db, b: nat) {
    Refs(db) && b < |db.bookings|
  }

  ghost predicate Opens(db: Db, a: Act, b: nat) {
    HasRow(db, b) && OpensWindow(db, a, b)
  }

  predicate Windowed(db: Db, b: nat) {
    b < |db.bookings| && db.bookings[b].reportEnds.Some?
  }

  /** In any run at all a booking without a report window has got one exactly if meanwhile a slip of it was
      cleared, or its group confirmed: nothing else opens a window and nothing closes one. */
  lemma WindowOpensIff(dbs: seq<Db>, acts: seq<Act>, j: nat, k: nat, b: nat)
    requires IsAnyRun(dbs, acts) && j <= k <= |acts| && HasRow(dbs[j], b) && !Windowed(dbs[j], b)
    ensures HasRow(dbs[k], b)
    ensures Windowed(dbs[k], b) <==> exists m :: j <= m < k && Opens(dbs[m], acts[m], b)
  {
    var good, alive := (db: Db) => HasRow(db, b), (db: Db) => true;
    var sets, clears := (db: Db, a: Act) => Opens(db, a, b), (db: Db, a: Act) => false;
    var on := (db: Db) => !Windowed(db, b);
    forall db, a, db' | good(db) && AnyMoves(db, a, db')
      ensures good(db') && on(db') == if sets(db, a) then false else on(db)
    {
      if ActStep(db, a).Ok? { ActWindow(db, a, b); }
    }
    HoldsAlong(AnyMoves, good, dbs, acts, j, k);
    OnUnlessStillSet(AnyMoves, good, alive, sets, clears, on, dbs, acts, j, k);
    assert StillSet(sets, clears, dbs, acts, j, k) <==> exists m :: j <= m < k && Opens(dbs[m], acts[m], b);
  }
}
