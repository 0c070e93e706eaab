/** Classes that were moved: the clone has no report window and never gets one, so it can be neither
    reported through the booking's own endpoint nor released by the daily job. */
module Clones {
  import opened Basics
  import opened RefundPolicy
  import opened Runs
  import opened Bookings
  import opened BookingInvariants
  import opened SlipSteps
  import opened BookingRuns
  import opened AllRuns

  /** No window, and still paid unless it is being moved itself. */
  predicate Windowless(k: Booking) {
    && k.phase == OneOnOne && k.reportEnds.None? && k.status != Completed && k.status != BookingStatus.Reported
    && (k.request.None? ==> k.status == Paid)
  }

  ghost predicate ClonesInv(db: Db) {
    Inv(db) && forall c: nat :: c < |db.bookings| && IsClone(db.bookings, c) ==> Windowless(db.bookings[c])
  }

  /** Same links; a booking that is a clone keeps being windowless. */
  ghost predicate SparesClones(db: Db, db': Db) {
    && |db'.bookings| >= |db.bookings|
    && (forall c: nat :: c < |db'.bookings| && IsClone(db'.bookings, c) ==>
          c < |db.bookings| && IsClone(db.bookings, c) && (Windowless(db.bookings[c]) ==> Windowless(db'.bookings[c])))
  }

  /** Only the rows whose link, window, phase, request and status are as before, or who are no clones, change. */
  lemma RowSparesClones(db: Db, db': Db, b: nat)
    requires Inv(db) && b < |db.bookings| == |db'.bookings| && db'.bookings == db.bookings[b := db'.bookings[b]]
    requires db'.bookings[b].movedTo == db.bookings[b].movedTo
    requires Windowless(db.bookings[b]) ==> Windowless(db'.bookings[b])
    ensures SparesClones(db, db')
  {
    forall c: nat | c < |db'.bookings| && IsClone(db'.bookings, c) ensures IsClone(db.bookings, c) {
      var a :| 0 <= a < |db'.bookings| && db'.bookings[a].movedTo == Some(c);
      assert db.bookings[a].movedTo == Some(c);
    }
  }

  lemma CreateSpares(db: Db, db': Db)
    requires Inv(db) && |db'.bookings| == |db.bookings| + 1 && db'.bookings[..|db.bookings|] == db.bookings
    requires db'.bookings[|db.bookings|].movedTo.None?
    ensures SparesClones(db, db')
  {
    forall c: nat | c < |db'.bookings| && IsClone(db'.bookings, c) ensures c < |db.bookings| && IsClone(db.bookings, c) {
      var a :| 0 <= a < |db'.bookings| && db'.bookings[a].movedTo == Some(c);
      assert db'.bookings[a] == db'.bookings[..|db.bookings|][a];
      assert BookingShape(db, a) && db.bookings[a].movedTo == Some(c);
    }
    assert forall c :: 0 <= c < |db.bookings| ==> db'.bookings[c] == db'.bookings[..|db.bookings|][c];
  }

  lemma RestatedSpares(db: Db, e: Event)
    requires Inv(db) && OnBooking(e) && Step(db, e).Ok? && Step(db, e).db != db
    ensures SparesClones(db, Step(db, e).db)
  {
    OnBookingRestates(db, e);
    assert BookingShape(db, e.b);
    RowSparesClones(db, Step(db, e).db, e.b);
  }

  /** A clone's intent is in escrow as long as it has no request of its own. */
  lemma ReviewSpares(db: Db, i: nat, now: int)
    requires Inv(db) && ApproveSlip(db, i, now).Ok? && ReviewIsSafe(db, i)
    ensures SparesClones(db, ApproveSlip(db, i, now).db)
  {
    assert IntentShape(db, i) && BookingShape(db, db.intents[i].booking);
    RowSparesClones(db, ApproveSlip(db, i, now).db, db.intents[i].booking);
  }

  lemma SettleSpares(db: Db, b: nat, outcome: Outcome)
    requires Inv(db) && OpenNegotiation(db, b)
    ensures SparesClones(db, Settle(db, b, outcome))
  {
    RowSparesClones(db, Settle(db, b, outcome), b);
  }

  lemma StepSpares(db: Db, e: Event)
    requires Inv(db) && Orderly(db, e) && Step(db, e).Ok? && !e.DoConfirm?
    ensures SparesClones(db, Step(db, e).db)
  {
    var db' := Step(db, e).db;
    if OnBooking(e) {
      if db' != db { RestatedSpares(db, e); }
    } else {
      match e
      case DoCreate(_, _, _, _, _, _) => CreateSpares(db, db');
      case DoApproveSlip(i, now) => ReviewSpares(db, i, now);
      case DoConfirmGroup(i, _) => RowSparesClones(db, db', db.intents[i].booking);
      case DoFailGroup(b, _) => RowSparesClones(db, db', b);
      case DoOpenIntent(_, b) => RowSparesClones(db, db', b);
      case DoInitiate(_, b, _, _) => RowSparesClones(db, db', b);
      case DoCancelPostpone(user, b) =>
        CancelPostponeKeeps(db, user, b);
        SettleSpares(db, b, CancelOutcome(db.requests[db.bookings[b].request.value].role));
      case DoTimeout(r, engaged) =>
        TimeoutKeeps(db, r, engaged);
        if r < |db.requests| && db.requests[r].status == Negotiating {
          SettleSpares(db, db.requests[r].booking, TimeoutOutcome(db.requests[r].role, engaged));
        }
      case _ =>
    }
  }

  /** The agreement makes one more clone, and the class it moves away has a request by then. */
  lemma AgreementKeepsClones(db: Db, b: nat)
    requires ClonesInv(db) && OpenNegotiation(db, b)
    requires db.requests[db.bookings[b].request.value].proposed.Some? && Inv(Agree(db, b))
    ensures ClonesInv(Agree(db, b))
  {
    var db', n := Agree(db, b), |db.bookings|;
    forall c: nat | c < |db'.bookings| && IsClone(db'.bookings, c) ensures Windowless(db'.bookings[c]) {
      if c < n {
        var a :| 0 <= a < |db'.bookings| && db'.bookings[a].movedTo == Some(c);
        assert db.bookings[a].movedTo == Some(c);
        assert IsClone(db.bookings, c);
      }
    }
  }

  lemma MoveKeepsClones(db: Db, e: Event, db': Db)
    requires ClonesInv(db) && Moves(db, e, db')
    ensures ClonesInv(db')
  {
    if Step(db, e).Ok? {
      StepKeeps(db, e);
      if e.DoConfirm? {
        ConfirmKeeps(db, e.user, e.b);
        AgreementKeepsClones(db, e.b);
      } else {
        StepSpares(db, e);
      }
    }
  }

  /** In every state of every run: a clone has no report window, is neither completed nor reported, the
      booking's report endpoint refuses it to everyone and the daily release passes it by. */
  lemma ClonesAreNeverReleased(dbs: seq<Db>, es: seq<Event>, k: nat, c: nat, user: User, now: int)
    requires IsRun(dbs, es) && ClonesInv(dbs[0]) && k <= |es|
    requires c < |dbs[k].bookings| && IsClone(dbs[k].bookings, c)
    ensures Inv(dbs[k]) && Windowless(dbs[k].bookings[c])
    ensures dbs[k].bookings[c].status != Completed && dbs[k].bookings[c].status != BookingStatus.Reported
    ensures !Report(dbs[k], user, c, now).Ok?
    ensures ReleaseForPayout(dbs[k], c, now) == Ok(dbs[k])
  {
    assert Preserved(Moves, ClonesInv) by {
      forall db, e, db' | ClonesInv(db) && Moves(db, e, db') ensures ClonesInv(db') { MoveKeepsClones(db, e, db'); }
    }
    HoldsAlong(Moves, ClonesInv, dbs, es, 0, k);
    assert BookingShape(dbs[k], c);
  }

  // ---- only clones --------------------------------------------------------------------------------------

  /** Whatever is paid without a report window was moved here. */
  predicate OnlyClones(bookings: seq<Booking>) {
    forall b: nat :: b < |bookings| && bookings[b].status == Paid && bookings[b].reportEnds.None? ==> IsClone(bookings, b)
  }

  ghost predicate WindowsInv(db: Db) {
    ClonesInv(db) && OnlyClones(db.bookings)
  }

  /** The service before its first booking. */
  lemma OpeningHasNoClones(zone: int, cuts: Cuts, tutors: seq<TutorProfile>)
    requires ProfilesOk(tutors) && forall t :: 0 <= t < |tutors| ==> tutors[t].defectCount == 0
    ensures WindowsInv(Opening(zone, cuts, tutors))
  {
    OpeningInv(zone, cuts, tutors);
  }

  /** A step that pays a booking gives it a window, unless it is the agreement that makes it a clone. */
  lemma StepKeepsOnlyClones(db: Db, e: Event)
    requires Inv(db) && OnlyClones(db.bookings) && Step(db, e).Ok?
    ensures OnlyClones(Step(db, e).db.bookings)
  {
    var db' := Step(db, e).db;
    StepEvolves(db, e);
    if !MayOpen(Service(e)) { OtherWindows(db, Service(e)); }
    forall b: nat | b < |db'.bookings| && db'.bookings[b].status == Paid && db'.bookings[b].reportEnds.None?
      ensures IsClone(db'.bookings, b)
    {
      if MayOpen(Service(e)) { OpeningWindow(db, Service(e), b); }
      if b < |db.bookings| {
        var a :| 0 <= a < |db.bookings| && db.bookings[a].movedTo == Some(b);
        assert BookingEvolves(db.bookings[a], db'.bookings[a]);
      }
    }
  }

  /** In every state of every orderly run a paid class lacks a report window if and only if it is a clone. */
  lemma WindowlessIffClone(dbs: seq<Db>, es: seq<Event>, k: nat, b: nat)
    requires IsRun(dbs, es) && WindowsInv(dbs[0]) && k <= |es|
    requires b < |dbs[k].bookings| && dbs[k].bookings[b].status == Paid
    ensures dbs[k].bookings[b].reportEnds.None? <==> IsClone(dbs[k].bookings, b)
  {
    assert Preserved(Moves, WindowsInv) by {
      forall db, e, db' | WindowsInv(db) && Moves(db, e, db') ensures WindowsInv(db') {
        MoveKeepsClones(db, e, db');
        if Step(db, e).Ok? { StepKeepsOnlyClones(db, e); }
      }
    }
    HoldsAlong(Moves, WindowsInv, dbs, es, 0, k);
  }

  // ---- outside orderly runs -------------------------------------------------------------------------------

  /** A class that no review can reach: one-on-one, past its payment, and no intent of it awaits a slip. */
  ghost predicate Sealed(db: Db, c: nat) {
    && HasRow(db, c) && !Windowed(db, c)
    && db.bookings[c].phase == OneOnOne
    && db.bookings[c].status !in {Requested, Accepted, Completed, BookingStatus.Reported}
    && forall i :: 0 <= i < |db.intents| && db.intents[i].booking == c ==> !AwaitsSlip(db.intents[i].status)
  }

  /** A slip is registered for the class, or a verdict about one of its slips arrives. */
  predicate AboutSlip(db: Db, a: Act, c: nat) {
    match a
    case Service(DoUploadSlip(user, i)) => UploadSlip(db, user, i).Ok? && db.intents[i].booking == c
    case Verdict(i, _, _) => i < |db.intents| && db.intents[i].booking == c
    case _ => false
  }

  /** The clone of a moved class is out of reach as long as its money is in escrow. */
  lemma CloneIsSealed(db: Db, c: nat)
    requires ClonesInv(db) && c < |db.bookings| && IsClone(db.bookings, c) && CountsOnEscrow(db, c)
    ensures Sealed(db, c)
  {
    assert BookingShape(db, c);
    forall i | 0 <= i < |db.intents| && db.intents[i].booking == c ensures !AwaitsSlip(db.intents[i].status) {
      assert IntentShape(db, i);
    }
  }

  /** Apart from its window, what one act does to a class out of reach. */
  ghost predicate StaysShut(db: Db, db': Db, c: nat) {
    && HasRow(db, c) && HasRow(db', c)
    && db'.bookings[c].phase == OneOnOne
    && db'.bookings[c].status !in {Requested, Accepted, Completed, BookingStatus.Reported}
    && forall i :: 0 <= i < |db'.intents| && db'.intents[i].booking == c ==> !AwaitsSlip(db'.intents[i].status)
  }

  lemma SettleKeepsShut(db: Db, b: nat, outcome: Outcome, c: nat)
    requires Sealed(db, c) && b < |db.bookings| && db.bookings[b].request.Some? && db.bookings[b].intent.Some?
    requires Refs(Settle(db, b, outcome))
    ensures StaysShut(db, Settle(db, b, outcome), c)
  {
  }

  lemma NegotiationKeepsShut(db: Db, e: Event, c: nat)
    requires Sealed(db, c) && Step(db, e).Ok? && HasRow(Step(db, e).db, c)
    requires e.DoInitiate? || e.DoPropose? || e.DoConfirm? || e.DoCancelPostpone? || e.DoTimeout?
    ensures StaysShut(db, Step(db, e).db, c)
  {
    match e
    case DoCancelPostpone(_, b) =>
      SettleKeepsShut(db, b, CancelOutcome(db.requests[db.bookings[b].request.value].role), c);
    case DoTimeout(r, engaged) =>
      if Step(db, e).db != db {
        SettleKeepsShut(db, db.requests[r].booking, TimeoutOutcome(db.requests[r].role, engaged), c);
      }
    case _ =>
  }

  lemma AnswerKeepsShut(db: Db, e: Event, c: nat)
    requires Sealed(db, c) && Step(db, e).Ok? && HasRow(Step(db, e).db, c)
    requires OnBooking(e) || e.DoCreate? || e.DoSetRules?
    ensures StaysShut(db, Step(db, e).db, c)
  {
  }

  lemma PaymentKeepsShut(db: Db, a: Act, c: nat)
    requires Sealed(db, c) && ActStep(db, a).Ok? && HasRow(ActStep(db, a).db, c) && !AboutSlip(db, a, c)
    requires MayOpen(a) || a.e.DoOpenIntent? || a.e.DoUploadSlip? || a.e.DoFailGroup?
    ensures StaysShut(db, ActStep(db, a).db, c) && !OpensWindow(db, a, c)
  {
  }

  lemma ActKeepsSealed(db: Db, a: Act, c: nat)
    requires Sealed(db, c) && ActStep(db, a).Ok? && !AboutSlip(db, a, c)
    ensures Sealed(ActStep(db, a).db, c)
  {
    ActWindow(db, a, c);
    if a.Service? && (OnBooking(a.e) || a.e.DoCreate? || a.e.DoSetRules?) {
      AnswerKeepsShut(db, a.e, c);
    } else if MayOpen(a) || a.e.DoOpenIntent? || a.e.DoUploadSlip? || a.e.DoFailGroup? {
      PaymentKeepsShut(db, a, c);
    } else {
      NegotiationKeepsShut(db, a.e, c);
    }
  }

  /** Once its money is in escrow, a clone gets no report window as long as nobody registers another slip for
      it and no verdict arrives, whatever else happens. */
  lemma SealedUntilASlip(dbs: seq<Db>, acts: seq<Act>, j: nat, k: nat, c: nat, user: User, now: int)
    requires IsAnyRun(dbs, acts) && j <= k <= |acts| && Sealed(dbs[j], c)
    requires forall m :: j <= m < k ==> !AboutSlip(dbs[m], acts[m], c)
    ensures Sealed(dbs[k], c)
    ensures !Report(dbs[k], user, c, now).Ok? && ReleaseForPayout(dbs[k], c, now) == Ok(dbs[k])
    decreases k - j
  {
    if j < k {
      assert AnyMoves(dbs[j], acts[j], dbs[j + 1]);
      if ActStep(dbs[j], acts[j]).Ok? { ActKeepsSealed(dbs[j], acts[j], c); }
      SealedUntilASlip(dbs, acts, j + 1, k, c, user, now);
    }
  }

  /** A second slip undoes it: registered for the clone's held intent and approved, it leaves a good state in which
      the clone has a window, can be reported, and is released when the window closes. */
  lemma SecondSlipOpensWindow(db: Db, c: nat, now: int)
    requires ClonesInv(db) && c < |db.bookings| && IsClone(db.bookings, c) && db.bookings[c].request.None?
    ensures db.bookings[c].intent.Some?
    ensures var i := db.bookings[c].intent.value;
            var registered := UploadSlip(db, db.intents[i].payer, i);
            && registered.Ok? && Refs(registered.db)
            && var approved := ApproveSlip(registered.db, i, now);
            && approved.Ok? && Inv(approved.db)
            && approved.db.bookings[c].reportEnds == Some(now + DAY)
            && Report(approved.db, db.bookings[c].student, c, now).Ok?
            && ReleaseForPayout(approved.db, c, now + DAY).Ok?
            && ReleaseForPayout(approved.db, c, now + DAY).db.bookings[c].status == Completed
  {
    assert BookingShape(db, c);
    var i := db.bookings[c].intent.value;
    var registered := UploadSlip(db, db.intents[i].payer, i).db;
    var approved := ApproveSlip(registered, i, now).db;
    assert IntentShape(db, i);
    assert Restated(db, approved, c);
    RestatedKeeps(db, approved, c);
  }
}
