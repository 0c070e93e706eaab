/** Where things come from: nothing happens to a class or to its money without the people it takes. */
module Consents {
  import opened Basics
  import opened RefundPolicy
  import opened Runs
  import opened Bookings
  import opened BookingInvariants
  import opened BookingRuns
  import opened AllRuns
  import opened Proposals
  import opened Permissions

  // ---- a class is moved by both ------------------------------------------------------------------------

  /** The side that opened request `r` proposes `p` for it. */
  ghost predicate ProposesFor(db: Db, e: Event, r: nat, p: Proposal) {
    && Refs(db) && r < |db.requests| && e.DoPropose? && Step(db, e).Ok?
    && db.bookings[e.b].request == Some(r) && e.user == db.requests[r].initiator && p == Proposal(e.start, e.minutes)
  }

  ghost predicate HasProposed(db: Db, r: nat, p: Proposal) {
    r < |db.requests| && db.requests[r].proposed == Some(p)
  }

  lemma ProposedBefore(db: Db, e: Event, r: nat, p: Proposal)
    requires Inv(db) && Step(db, e).Ok? && HasProposed(Step(db, e).db, r, p)
    ensures ProposesFor(db, e, r, p) || HasProposed(db, r, p)
  {
    if !e.DoPropose? { StepKeepsRules(db, e); }
  }

  lemma ProposalWasMade(dbs: seq<Db>, es: seq<Event>, k: nat, r: nat, p: Proposal)
    requires IsRun(dbs, es) && Inv(dbs[0]) && dbs[0].requests == [] && k <= |es| && HasProposed(dbs[k], r, p)
    ensures exists m :: 0 <= m < k && ProposesFor(dbs[m], es[m], r, p)
  {
    var bad, culprit := (db: Db) => HasProposed(db, r, p), (db: Db, e: Event, later: Db) => ProposesFor(db, e, r, p);
    forall db, e, db' | Inv(db) && Moves(db, e, db') && bad(db') ensures culprit(db, e, db') || bad(db) {
      if Step(db, e).Ok? { ProposedBefore(db, e, r, p); }
    }
    MovesEvolve();
    TracedBack(Moves, Inv, bad, culprit, dbs, es, 0, k);
  }

  /** A participant of the class opens request `r`. */
  ghost predicate Opens(db: Db, e: Event, r: nat, later: Db) {
    && Refs(db) && e.DoInitiate? && Step(db, e).Ok? && |db.requests| == r < |later.requests|
    && later.requests[r].initiator == e.user && later.requests[r].booking == e.b
    && Participant(db, e.b, e.user)
  }

  /** Nothing but `initiate` inserts a request. */
  lemma RequestsStay(db: Db, e: Event)
    requires Inv(db) && Step(db, e).Ok? && !e.DoInitiate?
    ensures |Step(db, e).db.requests| == |db.requests|
  {
    if OnBooking(e) {
      OnBookingRestates(db, e);
    } else {
      match e
      case DoConfirm(user, b) => ConfirmKeeps(db, user, b);
      case DoCancelPostpone(user, b) => CancelPostponeKeeps(db, user, b);
      case DoTimeout(r, engaged) => TimeoutKeeps(db, r, engaged);
      case _ =>
    }
  }

  lemma OpenedBefore(db: Db, e: Event, r: nat)
    requires Inv(db) && Step(db, e).Ok? && r < |Step(db, e).db.requests|
    ensures Opens(db, e, r, Step(db, e).db) || r < |db.requests|
  {
    if !e.DoInitiate? { RequestsStay(db, e); }
  }

  lemma OpensStays(db: Db, e: Event, r: nat, s: Db, s': Db)
    requires Opens(db, e, r, s) && Evolves(s, s')
    ensures Opens(db, e, r, s')
  {
    assert RequestEvolves(s.requests[r], s'.requests[r]);
  }

  lemma RequestWasOpened(dbs: seq<Db>, es: seq<Event>, k: nat, r: nat)
    requires IsRun(dbs, es) && Inv(dbs[0]) && dbs[0].requests == [] && k <= |es| && r < |dbs[k].requests|
    ensures exists m :: 0 <= m < k && Opens(dbs[m], es[m], r, dbs[k])
  {
    var bad, culprit := (db: Db) => r < |db.requests|, (db: Db, e: Event, later: Db) => Opens(db, e, r, later);
    MovesEvolve();
    forall db, e, db' | Inv(db) && Moves(db, e, db') && bad(db')
      ensures culprit(db, e, db') || (bad(db) && forall p, f :: culprit(p, f, db) ==> culprit(p, f, db'))
    {
      if Step(db, e).Ok? { OpenedBefore(db, e, r); }
      forall p, f | culprit(p, f, db) ensures culprit(p, f, db') { OpensStays(p, f, r, db, db'); }
    }
    TracedBack(Moves, Inv, bad, culprit, dbs, es, 0, k);
  }

  /** The other side agrees to what is proposed in request `r`. */
  ghost predicate Agrees(db: Db, e: Event, r: nat) {
    && Refs(db) && r < |db.requests| && e.DoConfirm? && Step(db, e).Ok? && db.bookings[e.b].request == Some(r)
    && Participant(db, e.b, e.user) && e.user != db.requests[r].initiator && db.requests[r].proposed.Some?
  }

  ghost predicate IsAgreed(db: Db, r: nat) {
    r < |db.requests| && db.requests[r].status == Agreement
  }

  lemma SettledIsNotAgreed(db: Db, b: nat, outcome: Outcome, r: nat)
    requires Inv(db) && OpenNegotiation(db, b) && IsAgreed(Settle(db, b, outcome), r)
    ensures IsAgreed(db, r)
  {
  }

  lemma AgreedBefore(db: Db, e: Event, r: nat)
    requires Inv(db) && Step(db, e).Ok? && IsAgreed(Step(db, e).db, r)
    ensures Agrees(db, e, r) || IsAgreed(db, r)
  {
    if OnBooking(e) {
      OnBookingRestates(db, e);
    } else {
      match e
      case DoConfirm(user, b) => ConfirmKeeps(db, user, b);
      case DoConfirmGroup(i, now) => GroupConfirmationRestates(db, i, now);
      case DoCancelPostpone(user, b) =>
        CancelPostponeKeeps(db, user, b);
        SettledIsNotAgreed(db, b, CancelOutcome(db.requests[db.bookings[b].request.value].role), r);
      case DoTimeout(q, engaged) =>
        TimeoutKeeps(db, q, engaged);
        if q < |db.requests| && db.requests[q].status == Negotiating {
          SettledIsNotAgreed(db, db.requests[q].booking, TimeoutOutcome(db.requests[q].role, engaged), r);
        }
      case _ =>
    }
  }

  lemma AgreementWasGiven(dbs: seq<Db>, es: seq<Event>, k: nat, r: nat)
    requires IsRun(dbs, es) && Inv(dbs[0]) && dbs[0].requests == [] && k <= |es| && IsAgreed(dbs[k], r)
    ensures exists m :: 0 <= m < k && Agrees(dbs[m], es[m], r)
  {
    var bad, culprit := (db: Db) => IsAgreed(db, r), (db: Db, e: Event, later: Db) => Agrees(db, e, r);
    MovesEvolve();
    forall db, e, db' | Inv(db) && Moves(db, e, db') && bad(db') ensures culprit(db, e, db') || bad(db) {
      if Step(db, e).Ok? { AgreedBefore(db, e, r); }
    }
    TracedBack(Moves, Inv, bad, culprit, dbs, es, 0, k);
  }

  lemma SameInitiator(dbs: seq<Db>, es: seq<Event>, j: nat, k: nat, r: nat)
    requires IsRun(dbs, es) && Inv(dbs[0]) && j <= k <= |es| && r < |dbs[j].requests|
    ensures r < |dbs[k].requests| && dbs[k].requests[r].initiator == dbs[j].requests[r].initiator
  {
    RunEvolves(dbs, es, j, k);
    assert RequestEvolves(dbs[j].requests[r], dbs[k].requests[r]);
  }

  /** Users and profiles keep their numbers. */
  predicate SameUsers(db: Db, db': Db) {
    |db.tutors| == |db'.tutors| && forall t :: 0 <= t < |db.tutors| ==> db'.tutors[t].user == db.tutors[t].user
  }

  lemma RunKeepsUsers(dbs: seq<Db>, es: seq<Event>, j: nat, k: nat)
    requires IsRun(dbs, es) && Inv(dbs[0]) && j <= k <= |es|
    ensures SameUsers(dbs[j], dbs[k])
  {
    RunKeepsInv(dbs, es, j);
    MovesEvolve();
    forall db, e, db' | Inv(db) && Moves(db, e, db') ensures SameUsers(db, db') {
      if Step(db, e).Ok? && !e.DoPropose? { StepKeepsRules(db, e); }
    }
    RelatesAlong(Moves, Inv, SameUsers, dbs, es, j, k);
  }

  /** The three events are by the two people of the class. */
  lemma BothSides(a: Db, asks: Event, p: Db, proposes: Event, g: Db, agrees: Event, r: nat)
    requires Inv(g) && Opens(a, asks, r, g) && Agrees(g, agrees, r)
    requires ProposesFor(p, proposes, r, g.requests[r].proposed.value)
    requires p.requests[r].initiator == g.requests[r].initiator && SameUsers(a, g)
    requires asks.b < |g.bookings| && BookingEvolves(a.bookings[asks.b], g.bookings[asks.b])
    ensures asks.user == proposes.user != agrees.user && asks.b == agrees.b
    ensures var c := g.bookings[agrees.b];
            BookingRefs(g, c) && {proposes.user, agrees.user} == {c.student, g.tutors[c.tutor].user}
  {
    assert BookingShape(g, agrees.b);
  }

  lemma TracedAgreement(dbs: seq<Db>, es: seq<Event>, k: nat, r: nat)
    returns (asked: nat, proposed: nat, agreed: nat)
    requires IsRun(dbs, es) && Inv(dbs[0]) && dbs[0].requests == [] && k <= |es| && IsAgreed(dbs[k], r)
    ensures asked < agreed < k && proposed < agreed && Agrees(dbs[agreed], es[agreed], r)
    ensures Opens(dbs[asked], es[asked], r, dbs[agreed])
    ensures ProposesFor(dbs[proposed], es[proposed], r, dbs[agreed].requests[r].proposed.value)
  {
    AgreementWasGiven(dbs, es, k, r);
    agreed :| 0 <= agreed < k && Agrees(dbs[agreed], es[agreed], r);
    RequestWasOpened(dbs, es, agreed, r);
    asked :| 0 <= asked < agreed && Opens(dbs[asked], es[asked], r, dbs[agreed]);
    var p := dbs[agreed].requests[r].proposed.value;
    ProposalWasMade(dbs, es, agreed, r, p);
    proposed :| 0 <= proposed < agreed && ProposesFor(dbs[proposed], es[proposed], r, p);
  }

  lemma SameBooking(dbs: seq<Db>, es: seq<Event>, j: nat, k: nat, b: nat)
    requires IsRun(dbs, es) && Inv(dbs[0]) && j <= k <= |es| && b < |dbs[j].bookings|
    ensures b < |dbs[k].bookings| && BookingEvolves(dbs[j].bookings[b], dbs[k].bookings[b])
  {
    RunEvolves(dbs, es, j, k);
  }

  /** Nobody moves a class alone. Behind every agreement of an orderly run from an empty service are one of the two
      people of the class, who opened the negotiation and proposed the slot, and the other one, who confirmed it. */
  lemma MovedByBoth(dbs: seq<Db>, es: seq<Event>, k: nat, r: nat) returns (asked: nat, proposed: nat, agreed: nat)
    requires IsRun(dbs, es) && Inv(dbs[0]) && dbs[0].requests == [] && k <= |es| && IsAgreed(dbs[k], r)
    ensures asked < agreed < k && proposed < agreed && Agrees(dbs[agreed], es[agreed], r)
    ensures Opens(dbs[asked], es[asked], r, dbs[agreed])
    ensures ProposesFor(dbs[proposed], es[proposed], r, dbs[agreed].requests[r].proposed.value)
    ensures es[asked].user == es[proposed].user != es[agreed].user && es[asked].b == es[agreed].b
    ensures var g, c := dbs[agreed], dbs[agreed].bookings[es[agreed].b];
            BookingRefs(g, c) && {es[proposed].user, es[agreed].user} == {c.student, g.tutors[c.tutor].user}
  {
    asked, proposed, agreed := TracedAgreement(dbs, es, k, r);
    RunKeepsInv(dbs, es, agreed);
    SameInitiator(dbs, es, proposed, agreed, r);
    RunKeepsUsers(dbs, es, asked, agreed);
    SameBooking(dbs, es, asked, agreed, es[asked].b);
    BothSides(dbs[asked], es[asked], dbs[proposed], es[proposed], dbs[agreed], es[agreed], r);
  }

  // ---- no class without its tutor -----------------------------------------------------------------------

  /** A one-on-one class that its tutor has not accepted: still asked for, refused, or called off by the student. */
  predicate Unaccepted(k: Booking) {
    && k.phase == OneOnOne && k.status in {Requested, Rejected, CancelledByStudent}
    && k.intent.None? && k.request.None? && k.reportEnds.None? && k.movedTo.None?
  }

  ghost predicate AcceptedBy(db: Db, e: Event, b: nat) {
    && Refs(db) && b < |db.bookings| && e == DoAccept(db.tutors[db.bookings[b].tutor].user, b) && Step(db, e).Ok?
  }

  /** The only ways on from there. */
  predicate MovesOn(db: Db, e: Event, b: nat, k': Booking)
    requires b < |db.bookings| && BookingRefs(db, db.bookings[b])
  {
    var k := db.bookings[b];
    || k' == k
    || (k.status == Requested && e == DoReject(db.tutors[k.tutor].user, b) && k' == k.(status := Rejected))
    || (k.status == Requested && e == DoCancel(k.student, b) && k' == k.(status := CancelledByStudent))
    || (k.status == Requested && e == DoAccept(db.tutors[k.tutor].user, b) && k' == k.(status := Accepted))
  }

  lemma AnswerMovesOn(db: Db, e: Event, b: nat)
    requires Inv(db) && Step(db, e).Ok? && OnBooking(e) && b < |db.bookings| && Unaccepted(db.bookings[b])
    ensures b < |Step(db, e).db.bookings| && MovesOn(db, e, b, Step(db, e).db.bookings[b])
  {
  }

  lemma NegotiationMovesOn(db: Db, e: Event, b: nat)
    requires Inv(db) && Step(db, e).Ok? && b < |db.bookings| && Unaccepted(db.bookings[b])
    requires e.DoInitiate? || e.DoPropose? || e.DoConfirm? || e.DoCancelPostpone? || e.DoTimeout?
    ensures b < |Step(db, e).db.bookings| && Step(db, e).db.bookings[b] == db.bookings[b]
  {
    match e
    case DoConfirm(user, a) => ConfirmKeeps(db, user, a);
    case DoCancelPostpone(user, a) => CancelPostponeKeeps(db, user, a);
    case DoTimeout(r, engaged) => TimeoutKeeps(db, r, engaged);
    case _ =>
  }

  lemma PaymentMovesOn(db: Db, e: Event, b: nat)
    requires Inv(db) && Step(db, e).Ok? && b < |db.bookings| && Unaccepted(db.bookings[b])
    requires e.DoCreate? || e.DoSetRules? || e.DoOpenIntent? || e.DoUploadSlip? || e.DoApproveSlip?
             || e.DoConfirmGroup? || e.DoFailGroup?
    ensures b < |Step(db, e).db.bookings| && Step(db, e).db.bookings[b] == db.bookings[b]
  {
    assert e.DoApproveSlip? || e.DoConfirmGroup? ==> IntentShape(db, e.i);
  }

  lemma UnacceptedMovesOn(db: Db, e: Event, b: nat)
    requires Inv(db) && Step(db, e).Ok? && b < |db.bookings| && Unaccepted(db.bookings[b])
    ensures b < |Step(db, e).db.bookings| && MovesOn(db, e, b, Step(db, e).db.bookings[b])
  {
    if OnBooking(e) {
      AnswerMovesOn(db, e, b);
    } else if e.DoInitiate? || e.DoPropose? || e.DoConfirm? || e.DoCancelPostpone? || e.DoTimeout? {
      NegotiationMovesOn(db, e, b);
    } else {
      PaymentMovesOn(db, e, b);
    }
  }

  /** Nothing but `create` and the agreement inserts a booking. */
  lemma BookingsStay(db: Db, e: Event)
    requires Inv(db) && Step(db, e).Ok? && !e.DoCreate? && !e.DoConfirm?
    ensures |Step(db, e).db.bookings| == |db.bookings|
  {
    if OnBooking(e) {
      OnBookingRestates(db, e);
    } else {
      match e
      case DoCancelPostpone(user, b) => CancelPostponeKeeps(db, user, b);
      case DoTimeout(r, engaged) => TimeoutKeeps(db, r, engaged);
      case _ =>
    }
  }

  lemma CreatedRow(db: Db, user: User, tutor: nat, start: int, minutes: nat, seats: Option<nat>, now: int)
    requires Inv(db) && Create(db, user, tutor, start, minutes, seats, now).Ok?
    ensures var rows := Create(db, user, tutor, start, minutes, seats, now).db.bookings;
            && |rows| == |db.bookings| + 1 && rows[|db.bookings|].reportEnds.None?
            && (rows[|db.bookings|].phase == Gathering
                || (Unaccepted(rows[|db.bookings|]) && rows[|db.bookings|].status == Requested))
  {
  }

  lemma ClonedRow(db: Db, user: User, b: nat)
    requires Inv(db) && Confirm(db, user, b).Ok?
    ensures var rows := Confirm(db, user, b).db.bookings;
            && |rows| == |db.bookings| + 1 && rows[|db.bookings|].status == Paid
            && rows[|db.bookings|].reportEnds.None? && IsClone(rows, |db.bookings|)
  {
    ConfirmKeeps(db, user, b);
    assert Agree(db, b).bookings[b].movedTo == Some(|db.bookings|);
  }

  /** A new row is a class just asked for, a group, or a clone. */
  lemma NewRow(db: Db, e: Event, b: nat)
    requires Inv(db) && Step(db, e).Ok? && |db.bookings| <= b < |Step(db, e).db.bookings|
    ensures var rows := Step(db, e).db.bookings;
            && rows[b].reportEnds.None?
            && (rows[b].phase == Gathering || (Unaccepted(rows[b]) && rows[b].status == Requested)
                || (IsClone(rows, b) && rows[b].status == Paid))
  {
    if e.DoCreate? {
      CreatedRow(db, e.user, e.tutor, e.start, e.minutes, e.seats, e.now);
    } else if e.DoConfirm? {
      ClonedRow(db, e.user, e.b);
    } else {
      BookingsStay(db, e);
    }
  }

  /** Taken up: a one-on-one class, no clone, that somebody has accepted. */
  predicate TakenUp(db: Db, b: nat) {
    && b < |db.bookings| && db.bookings[b].phase == OneOnOne
    && !Unaccepted(db.bookings[b]) && !IsClone(db.bookings, b)
  }

  lemma SamePhase(db: Db, e: Event, b: nat)
    requires Inv(db) && Step(db, e).Ok? && b < |db.bookings|
    ensures b < |Step(db, e).db.bookings|
    ensures db.bookings[b].phase != Gathering ==> Step(db, e).db.bookings[b].phase == db.bookings[b].phase
    ensures db.bookings[b].phase == Gathering ==> Step(db, e).db.bookings[b].phase != OneOnOne
  {
    StepEvolves(db, e);
    assert BookingEvolves(db.bookings[b], Step(db, e).db.bookings[b]);
  }

  lemma CloneStays(db: Db, db': Db, b: nat)
    requires Evolves(db, db')
    ensures IsClone(db.bookings, b) ==> IsClone(db'.bookings, b)
  {
    forall a | 0 <= a < |db.bookings|
      ensures db.bookings[a].movedTo == Some(b) ==> db'.bookings[a].movedTo == Some(b)
    {
      assert BookingEvolves(db.bookings[a], db'.bookings[a]);
    }
  }

  lemma TakenUpBefore(db: Db, e: Event, b: nat)
    requires Inv(db) && Step(db, e).Ok? && TakenUp(Step(db, e).db, b)
    ensures AcceptedBy(db, e, b) || TakenUp(db, b)
  {
    var db' := Step(db, e).db;
    StepEvolves(db, e);
    if b >= |db.bookings| {
      NewRow(db, e, b);
    } else {
      CloneStays(db, db', b);
      SamePhase(db, e, b);
      if Unaccepted(db.bookings[b]) { UnacceptedMovesOn(db, e, b); }
    }
  }

  /** No one-on-one class gets further than being asked for, refused or called off, unless its own tutor has
      accepted it, or it is the clone of one that went that way. */
  lemma NoClassWithoutItsTutor(dbs: seq<Db>, es: seq<Event>, k: nat, b: nat)
    requires IsRun(dbs, es) && Inv(dbs[0]) && dbs[0].bookings == [] && k <= |es| && TakenUp(dbs[k], b)
    ensures exists m :: 0 <= m < k && AcceptedBy(dbs[m], es[m], b)
  {
    var bad, culprit := (db: Db) => TakenUp(db, b), (db: Db, e: Event, later: Db) => AcceptedBy(db, e, b);
    MovesEvolve();
    forall db, e, db' | Inv(db) && Moves(db, e, db') && bad(db') ensures culprit(db, e, db') || bad(db) {
      if Step(db, e).Ok? { TakenUpBefore(db, e, b); }
    }
    TracedBack(Moves, Inv, bad, culprit, dbs, es, 0, k);
  }

  lemma AnsweredIsNotAsked(db: Db, e: Event, b: nat)
    requires Inv(db) && Step(db, e).Ok? && b < |db.bookings| && db.bookings[b].status != Requested
    requires OnBooking(e) || e.DoCreate? || e.DoSetRules? || e.DoInitiate? || e.DoPropose?
    ensures b < |Step(db, e).db.bookings| && Step(db, e).db.bookings[b].status != Requested
  {
  }

  lemma PaidIsNotAsked(db: Db, e: Event, b: nat)
    requires Inv(db) && Step(db, e).Ok? && b < |db.bookings| && db.bookings[b].status != Requested
    requires e.DoOpenIntent? || e.DoUploadSlip? || e.DoApproveSlip? || e.DoConfirmGroup? || e.DoFailGroup?
    ensures b < |Step(db, e).db.bookings| && Step(db, e).db.bookings[b].status != Requested
  {
  }

  /** No step makes a class merely asked for again. */
  lemma NeverAskedAgain(db: Db, e: Event, b: nat)
    requires Inv(db) && Step(db, e).Ok? && b < |db.bookings| && db.bookings[b].status != Requested
    ensures b < |Step(db, e).db.bookings| && Step(db, e).db.bookings[b].status != Requested
  {
    if e.DoConfirm? {
      ConfirmKeeps(db, e.user, e.b);
    } else if e.DoCancelPostpone? {
      CancelPostponeKeeps(db, e.user, e.b);
    } else if e.DoTimeout? {
      TimeoutKeeps(db, e.r, e.engaged);
    } else if e.DoOpenIntent? || e.DoUploadSlip? || e.DoApproveSlip? || e.DoConfirmGroup? || e.DoFailGroup? {
      PaidIsNotAsked(db, e, b);
    } else {
      AnsweredIsNotAsked(db, e, b);
    }
  }

  /** If the one-on-one class is still asked for, there is nothing to it yet. */
  predicate PlainWhileAsked(bookings: seq<Booking>, b: nat) {
    b < |bookings| && bookings[b].phase == OneOnOne && bookings[b].status == Requested ==> Unaccepted(bookings[b])
  }

  lemma StaysPlainWhileAsked(db: Db, e: Event, b: nat)
    requires Inv(db) && Step(db, e).Ok? && PlainWhileAsked(db.bookings, b)
    ensures PlainWhileAsked(Step(db, e).db.bookings, b)
  {
    var db' := Step(db, e).db;
    if b >= |db.bookings| {
      if b < |db'.bookings| { NewRow(db, e, b); }
    } else {
      SamePhase(db, e, b);
      if Unaccepted(db.bookings[b]) {
        UnacceptedMovesOn(db, e, b);
      } else if db.bookings[b].status != Requested {
        NeverAskedAgain(db, e, b);
      }
    }
  }

  lemma AskedForIsUnaccepted(dbs: seq<Db>, es: seq<Event>, k: nat, b: nat)
    requires IsRun(dbs, es) && Inv(dbs[0]) && dbs[0].bookings == [] && k <= |es| && b < |dbs[k].bookings|
    requires dbs[k].bookings[b].phase == OneOnOne && dbs[k].bookings[b].status == Requested
    ensures Unaccepted(dbs[k].bookings[b])
  {
    var good := (db: Db) => Inv(db) && PlainWhileAsked(db.bookings, b);
    forall db, e, db' | good(db) && Moves(db, e, db') ensures good(db') {
      if Step(db, e).Ok? {
        StepKeeps(db, e);
        StaysPlainWhileAsked(db, e, b);
      }
    }
    HoldsAlong(Moves, good, dbs, es, 0, k);
  }

  ghost predicate Refuses(db: Db, b: nat, k: Booking) {
    Inv(db) && b < |db.bookings| && db.bookings[b] == k && Unaccepted(k) && k.status == Rejected
  }

  lemma StaysRefused(db: Db, e: Event, db': Db, b: nat, k: Booking)
    requires Refuses(db, b, k) && Moves(db, e, db')
    ensures Refuses(db', b, k)
  {
    if Step(db, e).Ok? { StepKeeps(db, e); UnacceptedMovesOn(db, e, b); }
  }

  lemma RefusedNow(db: Db, user: User, b: nat)
    requires Inv(db) && RejectByTutor(db, user, b).Ok? && Unaccepted(db.bookings[b])
    ensures Refuses(RejectByTutor(db, user, b).db, b, db.bookings[b].(status := Rejected))
  {
    StepKeeps(db, DoReject(user, b));
    UnacceptedMovesOn(db, DoReject(user, b), b);
  }

  /** What the tutor refused stays refused: in every later state of an orderly run from an empty service it is as
      it was, holds nobody's time, and cannot be paid for. */
  lemma RefusedForGood(dbs: seq<Db>, es: seq<Event>, j: nat, k: nat, user: User, b: nat)
    requires IsRun(dbs, es) && Inv(dbs[0]) && dbs[0].bookings == [] && j < k <= |es|
    requires Refs(dbs[j]) && es[j] == DoReject(user, b) && RejectByTutor(dbs[j], user, b).Ok?
    ensures Inv(dbs[k]) && b < |dbs[k].bookings|
    ensures dbs[k].bookings[b] == dbs[j].bookings[b].(status := Rejected)
    ensures forall x :: !Reserves(dbs[k], b, x)
    ensures forall payer :: !OpenIntent(dbs[k], payer, b).Ok?
  {
    var row := dbs[j].bookings[b].(status := Rejected);
    RunKeepsInv(dbs, es, j);
    AskedForIsUnaccepted(dbs, es, j, b);
    RefusedNow(dbs[j], user, b);
    assert Moves(dbs[j], es[j], dbs[j + 1]);
    var good := (db: Db) => Refuses(db, b, row);
    forall db, e, db' | good(db) && Moves(db, e, db') ensures good(db') { StaysRefused(db, e, db', b, row); }
    HoldsAlong(Moves, good, dbs, es, j + 1, k);
  }

  // ---- every class was asked for ------------------------------------------------------------------------

  /** The price is the hourly rate for the time and the seats, to the nearest baht, halves upwards. */
  predicate FairPrice(amount: int, rate: int, minutes: int, seats: int) {
    amount * 120 - 60 <= 2 * rate * minutes * seats < amount * 120 + 60
  }

  lemma TotalIsFair(rate: nat, minutes: nat, seats: nat)
    ensures FairPrice(ClassTotal(rate, minutes, seats), rate, minutes, seats)
  {
    var x := 2 * rate * minutes * seats;
    assert ClassTotal(rate, minutes, seats) == (x + 60) / 120;
  }

  /** The student of the row asked for it: of another person, who was not suspended, for a time to come, a group on a
      later day; at a fair price. */
  ghost predicate AskedFor(db: Db, e: Event, b: nat, later: Db) {
    && Refs(db) && e.DoCreate? && |db.bookings| == b < |later.bookings| && e.tutor < |db.tutors|
    && var k, t := later.bookings[b], db.tutors[e.tutor];
       && k.student == e.user && k.tutor == e.tutor && k.start == e.start && k.minutes == e.minutes
       && k.student != t.user && e.now <= k.start && k.minutes in {60, 90, 120}
       && (t.suspendedUntil.Some? ==> t.suspendedUntil.value <= e.now)
       && (e.seats.Some? ==> 2 <= e.seats.value <= 10 && BangkokDay(k.start) > BangkokDay(e.now))
       && FairPrice(k.amount, t.hourlyRate, k.minutes, if e.seats.Some? then e.seats.value else 1)
  }

  /** The row is the class of row `e.b`, moved to the slot its two sides agreed on. */
  ghost predicate AgreedTo(db: Db, e: Event, b: nat, later: Db) {
    && Refs(db) && e.DoConfirm? && e.b < |db.bookings| == b < |later.bookings| && db.bookings[e.b].request.Some?
    && Agrees(db, e, db.bookings[e.b].request.value)
    && var k, c, p := db.bookings[e.b], later.bookings[b], db.requests[db.bookings[e.b].request.value].proposed.value;
       && c.student == k.student && c.tutor == k.tutor && c.amount == k.amount
       && c.start == p.start && c.minutes == p.minutes
  }

  ghost predicate BornOf(db: Db, e: Event, b: nat, later: Db) {
    AskedFor(db, e, b, later) || AgreedTo(db, e, b, later)
  }

  lemma CreatedAsAsked(db: Db, e: Event)
    requires Inv(db) && e.DoCreate? && Step(db, e).Ok?
    ensures AskedFor(db, e, |db.bookings|, Step(db, e).db)
  {
    LaterDay(e.start, e.now);
    TotalIsFair(db.tutors[e.tutor].hourlyRate, e.minutes, if e.seats.Some? then e.seats.value else 1);
  }

  lemma ClonedAsAgreed(db: Db, e: Event)
    requires Inv(db) && e.DoConfirm? && Step(db, e).Ok?
    ensures AgreedTo(db, e, |db.bookings|, Step(db, e).db)
  {
    ConfirmKeeps(db, e.user, e.b);
  }

  lemma BornBefore(db: Db, e: Event, b: nat)
    requires Inv(db) && Step(db, e).Ok? && b < |Step(db, e).db.bookings|
    ensures BornOf(db, e, b, Step(db, e).db) || b < |db.bookings|
  {
    if e.DoCreate? {
      CreatedRow(db, e.user, e.tutor, e.start, e.minutes, e.seats, e.now);
      CreatedAsAsked(db, e);
    } else if e.DoConfirm? {
      ClonedRow(db, e.user, e.b);
      ClonedAsAgreed(db, e);
    } else {
      BookingsStay(db, e);
    }
  }

  lemma BornStays(db: Db, e: Event, b: nat, s: Db, s': Db)
    requires BornOf(db, e, b, s) && Evolves(s, s')
    ensures BornOf(db, e, b, s')
  {
    assert BookingEvolves(s.bookings[b], s'.bookings[b]);
  }

  /** Every row of every state of an orderly run from an empty service was asked for by its student, or is what two
      sides agreed to move such a class to; people, time and price are still those of that moment. */
  lemma EveryClassWasAskedFor(dbs: seq<Db>, es: seq<Event>, k: nat, b: nat)
    requires IsRun(dbs, es) && Inv(dbs[0]) && dbs[0].bookings == [] && k <= |es| && b < |dbs[k].bookings|
    ensures exists m :: 0 <= m < k && BornOf(dbs[m], es[m], b, dbs[k])
  {
    var bad, culprit := (db: Db) => b < |db.bookings|, (db: Db, e: Event, later: Db) => BornOf(db, e, b, later);
    MovesEvolve();
    forall db, e, db' | Inv(db) && Moves(db, e, db') && bad(db')
      ensures culprit(db, e, db') || (bad(db) && forall p, f :: culprit(p, f, db) ==> culprit(p, f, db'))
    {
      if Step(db, e).Ok? { BornBefore(db, e, b); }
      forall p, f | culprit(p, f, db) ensures culprit(p, f, db') { BornStays(p, f, b, db, db'); }
    }
    TracedBack(Moves, Inv, bad, culprit, dbs, es, 0, k);
  }
}
