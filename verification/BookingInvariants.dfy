/** What every step of the booking core keeps: the links between rows, nobody double-booked,
    money accounted for, defects counted. */
module BookingInvariants {
  import opened Basics
  import opened RefundPolicy
  import opened WeeklyRules
  import opened Bookings

  // ---- links and statuses -----------------------------------------------------------------

  /** How a booking's status goes with the state of its postpone request. */
  predicate StatusShape(k: Booking, request: Option<RequestStatus>) {
    && (match request
        case None =>
          && k.status !in {PostponePending, Postponed, CancelledNoAgreement,
                           CancelledTutorUnresponsive, CancelledTutorInitiated}
          && k.movedTo.None?
        case Some(Negotiating) =>
          k.status in {PostponePending, BookingStatus.Reported} && k.movedTo.None?
        case Some(Agreement) =>
          k.status in {Postponed, BookingStatus.Reported} && k.movedTo.Some? && k.intent.None?
        case Some(Expired) =>
          && k.status in {CancelledNoAgreement, CancelledTutorUnresponsive, CancelledTutorInitiated,
                          BookingStatus.Reported}
          && k.movedTo.None?)
    && (k.phase == Gathering ==> k.status == Requested && k.reportEnds.None?)
    && (k.phase == GroupFailed ==> k.status == Cancelled && k.reportEnds.None?)
  }

  function StatusOfRequest(db: Db, k: Booking): Option<RequestStatus>
    requires BookingRefs(db, k)
  {
    if k.request.Some? then Some(db.requests[k.request.value].status) else None
  }

  /** The original-to-clone link points forward to a class of the same people at the same price,
      which holds the money unless it has moved on again. */
  predicate MoveShape(bookings: seq<Booking>, b: nat)
    requires b < |bookings|
  {
    bookings[b].movedTo.Some? ==>
      var k, c := bookings[b], bookings[b].movedTo.value;
      && b < c < |bookings|
      && (bookings[c].movedTo.Some? || bookings[c].intent.Some?)
      && bookings[c].student == k.student && bookings[c].tutor == k.tutor && bookings[c].amount == k.amount
  }

  predicate InEscrow(s: IntentStatus) {
    s == HeldInEscrow || s == Disputed
  }

  /** A class that counts as paid, or is being renegotiated, is backed by money still in escrow. */
  predicate Backed(db: Db, k: Booking)
    requires BookingRefs(db, k)
  {
    k.status == Paid || StatusOfRequest(db, k) == Some(Negotiating) ==>
      k.intent.Some? && InEscrow(db.intents[k.intent.value].status)
  }

  predicate BookingShape(db: Db, b: nat)
    requires b < |db.bookings|
  {
    var k := db.bookings[b];
    && BookingRefs(db, k)
    && Backed(db, k)
    && (k.request.Some? ==> db.requests[k.request.value].booking == b)
    && (k.intent.Some? ==> db.intents[k.intent.value].booking == b)
    && StatusShape(k, StatusOfRequest(db, k))
    && MoveShape(db.bookings, b)
  }

  predicate RequestShape(db: Db, r: nat)
    requires r < |db.requests|
  {
    var q := db.requests[r];
    && q.booking < |db.bookings|
    && db.bookings[q.booking].request == Some(r)
    && (q.status == Negotiating <==> q.resolvedAs.None?)
    && (q.status == Agreement <==> q.resolvedAs == Some(Outcome.Agreed))
  }

  predicate IntentShape(db: Db, i: nat)
    requires i < |db.intents|
  {
    && db.intents[i].booking < |db.bookings|
    && db.bookings[db.intents[i].booking].intent == Some(i)
  }

  /** Distinct originals became distinct clones. */
  predicate MovesApart(bookings: seq<Booking>) {
    forall a, b :: 0 <= a < b < |bookings| && bookings[a].movedTo.Some? && bookings[b].movedTo.Some?
      ==> bookings[a].movedTo != bookings[b].movedTo
  }

  ghost predicate Linked(db: Db) {
    && (forall b :: 0 <= b < |db.bookings| ==> BookingShape(db, b))
    && (forall r :: 0 <= r < |db.requests| ==> RequestShape(db, r))
    && (forall i :: 0 <= i < |db.intents| ==> IntentShape(db, i))
    && MovesApart(db.bookings)
  }

  lemma LinkedRefs(db: Db)
    requires Linked(db)
    ensures Refs(db)
  {
    forall b | 0 <= b < |db.bookings| ensures BookingRefs(db, db.bookings[b]) { assert BookingShape(db, b); }
    forall r | 0 <= r < |db.requests| ensures db.requests[r].booking < |db.bookings| { assert RequestShape(db, r); }
    forall i | 0 <= i < |db.intents| ensures db.intents[i].booking < |db.bookings| { assert IntentShape(db, i); }
  }

  // ---- nobody is double-booked ---------------------------------------------------------------

  /** Booking `b` holds the span: with its own class time while live, or with an open proposal. */
  ghost predicate Reserves(db: Db, b: nat, x: Span)
    requires Refs(db)
  {
    b < |db.bookings|
    && ((Live(db.bookings[b].status) && x == OwnSlot(db.bookings[b])) || ProposedSlot(db, b) == Some(x))
  }

  /** On every user's calendar, spans held by different bookings are disjoint. */
  ghost predicate NoDoubleBooking(db: Db)
    requires Refs(db)
  {
    forall a, b, x, y, u ::
      a != b && Reserves(db, a, x) && Reserves(db, b, y) && Involves(db, a, u) && Involves(db, b, u)
      ==> !Overlap(x, y)
  }

  /** Same people, and no booking holds a span it did not hold before. */
  ghost predicate ReservesNoMore(db: Db, db': Db)
    requires Refs(db) && Refs(db')
  {
    && |db'.bookings| == |db.bookings|
    && (forall b, u :: 0 <= b < |db.bookings| ==> (Involves(db', b, u) <==> Involves(db, b, u)))
    && (forall b, x :: Reserves(db', b, x) ==> Reserves(db, b, x))
  }

  lemma ShrinkKeepsNoDoubleBooking(db: Db, db': Db)
    requires Refs(db) && Refs(db') && NoDoubleBooking(db) && ReservesNoMore(db, db')
    ensures NoDoubleBooking(db')
  {
  }

  /** A free answer from the guard means free of everything that other bookings hold. */
  lemma GuardFree(db: Db, u: User, span: Span, exclude: Option<nat>)
    requires Refs(db) && Guard(db, u, span, exclude).None?
    ensures forall b: nat, x :: Reserves(db, b, x) && Some(b) != exclude && Involves(db, b, u) ==> !Overlap(x, span)
  {
    assert !BookingHit(db, u, span, exclude) && !ProposalHit(db, u, span, exclude);
  }

  // ---- money ---------------------------------------------------------------------------------

  /** Student and platform shares that the ledger records against the intent. */
  function Shares(ledger: seq<LedgerRow>, i: nat): int {
    if |ledger| == 0 then 0
    else
      var row := ledger[|ledger| - 1];
      Shares(ledger[..|ledger| - 1], i) + (if row.intent == i then row.student + row.platform else 0)
  }

  function RowsFor(ledger: seq<LedgerRow>, i: nat): nat {
    if |ledger| == 0 then 0
    else RowsFor(ledger[..|ledger| - 1], i) + (if ledger[|ledger| - 1].intent == i then 1 else 0)
  }

  lemma AppendRow(ledger: seq<LedgerRow>, row: LedgerRow, i: nat)
    ensures Shares(ledger + [row], i) == Shares(ledger, i) + (if row.intent == i then row.student + row.platform else 0)
    ensures RowsFor(ledger + [row], i) == RowsFor(ledger, i) + (if row.intent == i then 1 else 0)
  {
    assert (ledger + [row])[..|ledger|] == ledger;
  }

  lemma {:induction false} UnmentionedHasNoRows(ledger: seq<LedgerRow>, i: nat)
    requires forall n :: 0 <= n < |ledger| ==> ledger[n].intent != i
    ensures RowsFor(ledger, i) == 0
  {
    if |ledger| > 0 {
      UnmentionedHasNoRows(ledger[..|ledger| - 1], i);
    }
  }

  lemma {:induction false} NoRowsNoShares(ledger: seq<LedgerRow>, i: nat)
    requires RowsFor(ledger, i) == 0
    ensures Shares(ledger, i) == 0
  {
    if |ledger| > 0 {
      NoRowsNoShares(ledger[..|ledger| - 1], i);
    }
  }

  /** The class's money has been split for good. */
  predicate Closed(db: Db, b: nat)
    requires b < |db.bookings| && BookingRefs(db, db.bookings[b])
  {
    var k := db.bookings[b];
    k.phase == GroupFailed || (k.request.Some? && db.requests[k.request.value].status == Expired)
  }

  predicate Unsettled(s: IntentStatus) {
    s != IntentStatus.Refunded && s != ReleasedForPayout
  }

  /** What the class cost equals what is still on the intent plus what the ledger took off it; the
      ledger took it off at most once, and a refunded intent is empty because of that one row. */
  predicate Conserved(db: Db, i: nat)
    requires Refs(db) && i < |db.intents|
  {
    var x := db.intents[i];
    && db.bookings[x.booking].amount == x.amount + Shares(db.ledger, i)
    && RowsFor(db.ledger, i) <= 1
    && (RowsFor(db.ledger, i) == 1 ==> Closed(db, x.booking) && !Unsettled(x.status))
    && (x.status == IntentStatus.Refunded ==> RowsFor(db.ledger, i) == 1 && x.amount == 0)
  }

  ghost predicate MoneyConserved(db: Db)
    requires Refs(db)
  {
    && (forall i :: 0 <= i < |db.intents| ==> Conserved(db, i))
    && (forall n :: 0 <= n < |db.ledger| ==> db.ledger[n].intent < |db.intents|)
  }

  // ---- defects -------------------------------------------------------------------------------

  predicate CountsAsDefect(db: Db, b: nat)
    requires b < |db.bookings| && BookingRefs(db, db.bookings[b])
  {
    var k := db.bookings[b];
    && k.request.Some?
    && db.requests[k.request.value].resolvedAs.Some?
    && IsDefect(db.requests[k.request.value].resolvedAs.value)
  }

  /** The tutor's bookings whose negotiation ended against the tutor. */
  ghost function Defects(db: Db, t: nat): set<nat>
    requires Refs(db)
  {
    set b: nat | 0 <= b < |db.bookings| && db.bookings[b].tutor == t && CountsAsDefect(db, b)
  }

  ghost predicate DefectsCounted(db: Db)
    requires Refs(db)
  {
    forall t :: 0 <= t < |db.tutors| ==> db.tutors[t].defectCount == |Defects(db, t)|
  }

  predicate ProfilesOk(tutors: seq<TutorProfile>) {
    && (forall t :: 0 <= t < |tutors| ==> ValidRules(tutors[t].rules))
    && (forall s, t :: 0 <= s < t < |tutors| ==> tutors[s].user != tutors[t].user)
  }

  ghost predicate Inv(db: Db) {
    && Linked(db)
    && Refs(db)
    && NoDoubleBooking(db)
    && MoneyConserved(db)
    && DefectsCounted(db)
    && ProfilesOk(db.tutors)
  }

  // ---- steps that only rewrite the state of one booking and of intents -------------------------

  predicate IntentRestated(x: Intent, x': Intent, b: nat) {
    x' == x || (x.booking == b && Unsettled(x.status) && x'.status != IntentStatus.Refunded
                && x' == x.(status := x'.status))
  }

  /** Booking `b` changed nothing but its status, report window and phase and holds nothing new; of
      its intent, unless money already left it, only the status changed. */
  ghost predicate Restated(db: Db, db': Db, b: nat) {
    && b < |db.bookings| == |db'.bookings|
    && db'.bookings == db.bookings[b := db'.bookings[b]]
    && (var k, k' := db.bookings[b], db'.bookings[b];
        && k' == k.(status := k'.status, reportEnds := k'.reportEnds, phase := k'.phase)
        && (Live(k'.status) ==> Live(k.status))
        && (Active(k'.status) ==> Active(k.status))
        && (k'.phase == k.phase || k.phase == Gathering)
        && BookingRefs(db, k)
        && StatusShape(k', StatusOfRequest(db, k)))
    && |db'.intents| == |db.intents|
    && (forall i :: 0 <= i < |db.intents| ==> IntentRestated(db.intents[i], db'.intents[i], b))
    && db' == db.(bookings := db'.bookings, intents := db'.intents)
    && Backed(db', db'.bookings[b])
  }

  lemma RestatedKeeps(db: Db, db': Db, b: nat)
    requires Inv(db) && Restated(db, db', b)
    ensures Inv(db')
  {
    forall a | 0 <= a < |db'.bookings| ensures BookingShape(db', a) { assert BookingShape(db, a); }
    forall r | 0 <= r < |db'.requests| ensures RequestShape(db', r) { assert RequestShape(db, r); }
    forall i | 0 <= i < |db'.intents| ensures IntentShape(db', i) { assert IntentShape(db, i); }
    LinkedRefs(db');
    ShrinkKeepsNoDoubleBooking(db, db');
    forall i | 0 <= i < |db'.intents| ensures Conserved(db', i) { assert Conserved(db, i); }
    forall t | 0 <= t < |db'.tutors| ensures Defects(db', t) == Defects(db, t) {}
  }

  // ---- steps that insert rows ---------------------------------------------------------------------

  lemma CreateNoDoubleBooking(db: Db, user: User, tutor: nat, start: int, minutes: nat, seats: Option<nat>, now: int)
    requires Linked(db) && Refs(db) && NoDoubleBooking(db) && Create(db, user, tutor, start, minutes, seats, now).Ok?
    requires Refs(Create(db, user, tutor, start, minutes, seats, now).db)
    ensures NoDoubleBooking(Create(db, user, tutor, start, minutes, seats, now).db)
  {
    var db' := Create(db, user, tutor, start, minutes, seats, now).db;
    var n, span := |db.bookings|, Lesson(start, minutes);
    GuardFree(db, user, span, None);
    GuardFree(db, db.tutors[tutor].user, span, None);
    forall b: nat, x | Reserves(db', b, x) ensures if b < n then Reserves(db, b, x) else x == span {}
    forall b, u | 0 <= b < n ensures Involves(db', b, u) <==> Involves(db, b, u) {}
  }

  lemma CreateKeeps(db: Db, user: User, tutor: nat, start: int, minutes: nat, seats: Option<nat>, now: int)
    requires Inv(db) && Create(db, user, tutor, start, minutes, seats, now).Ok?
    ensures Inv(Create(db, user, tutor, start, minutes, seats, now).db)
  {
    var db' := Create(db, user, tutor, start, minutes, seats, now).db;
    var n := |db.bookings|;
    forall b | 0 <= b < |db'.bookings| ensures BookingShape(db', b) { if b < n { assert BookingShape(db, b); } }
    forall r | 0 <= r < |db'.requests| ensures RequestShape(db', r) { assert RequestShape(db, r); }
    forall i | 0 <= i < |db'.intents| ensures IntentShape(db', i) { assert IntentShape(db, i); }
    LinkedRefs(db');
    CreateNoDoubleBooking(db, user, tutor, start, minutes, seats, now);
    forall i | 0 <= i < |db'.intents| ensures Conserved(db', i) { assert Conserved(db, i); }
    forall t | 0 <= t < |db'.tutors| ensures Defects(db', t) == Defects(db, t) {}
  }

  lemma OpenIntentLinked(db: Db, user: User, b: nat)
    requires Linked(db) && Refs(db) && OpenIntent(db, user, b).Ok?
    ensures Linked(OpenIntent(db, user, b).db) && Refs(OpenIntent(db, user, b).db)
  {
    var db' := OpenIntent(db, user, b).db;
    assert BookingShape(db, b);
    forall a | 0 <= a < |db'.bookings| ensures BookingShape(db', a) { assert BookingShape(db, a); }
    forall r | 0 <= r < |db'.requests| ensures RequestShape(db', r) { assert RequestShape(db, r); }
    forall i | 0 <= i < |db'.intents| ensures IntentShape(db', i) {
      if i < |db.intents| { assert IntentShape(db, i); }
    }
    LinkedRefs(db');
  }

  lemma OpenIntentKeeps(db: Db, user: User, b: nat)
    requires Inv(db) && OpenIntent(db, user, b).Ok?
    ensures Inv(OpenIntent(db, user, b).db)
  {
    var db' := OpenIntent(db, user, b).db;
    if db' != db {
      OpenIntentLinked(db, user, b);
      ShrinkKeepsNoDoubleBooking(db, db');
      UnmentionedHasNoRows(db.ledger, |db.intents|);
      NoRowsNoShares(db.ledger, |db.intents|);
      forall i | 0 <= i < |db'.intents| ensures Conserved(db', i) {
        if i < |db.intents| { assert Conserved(db, i); }
      }
      forall t | 0 <= t < |db'.tutors| ensures Defects(db', t) == Defects(db, t) {}
    }
  }

  lemma InitiateKeeps(db: Db, user: User, b: nat, reasonLength: nat, now: int)
    requires Inv(db) && Initiate(db, user, b, reasonLength, now).Ok?
    ensures Inv(Initiate(db, user, b, reasonLength, now).db)
  {
    var db' := Initiate(db, user, b, reasonLength, now).db;
    assert BookingShape(db, b);
    forall a | 0 <= a < |db'.bookings| ensures BookingShape(db', a) { assert BookingShape(db, a); }
    forall r | 0 <= r < |db'.requests| ensures RequestShape(db', r) {
      if r < |db.requests| { assert RequestShape(db, r); }
    }
    forall i | 0 <= i < |db'.intents| ensures IntentShape(db', i) { assert IntentShape(db, i); }
    LinkedRefs(db');
    ShrinkKeepsNoDoubleBooking(db, db');
    forall i | 0 <= i < |db'.intents| ensures Conserved(db', i) { assert Conserved(db, i) && IntentShape(db, i); }
    forall t | 0 <= t < |db'.tutors| ensures Defects(db', t) == Defects(db, t) {}
  }

  // ---- the negotiation ------------------------------------------------------------------------------

  lemma ProposeNoDoubleBooking(db: Db, user: User, b: nat, start: int, minutes: nat, now: int)
    requires Linked(db) && Refs(db) && NoDoubleBooking(db) && Propose(db, user, b, start, minutes, now).Ok?
    requires Refs(Propose(db, user, b, start, minutes, now).db)
    ensures NoDoubleBooking(Propose(db, user, b, start, minutes, now).db)
  {
    var db' := Propose(db, user, b, start, minutes, now).db;
    var k, span := db.bookings[b], Lesson(start, minutes);
    GuardFree(db, k.student, span, Some(b));
    GuardFree(db, db.tutors[k.tutor].user, span, Some(b));
    assert BookingShape(db, b);
    forall a: nat, x | Reserves(db', a, x) ensures Reserves(db, a, x) || (a == b && x == span) {
      assert BookingShape(db, a);
    }
    forall a, u | 0 <= a < |db.bookings| ensures Involves(db', a, u) <==> Involves(db, a, u) {}
  }

  lemma ProposeKeeps(db: Db, user: User, b: nat, start: int, minutes: nat, now: int)
    requires Inv(db) && Propose(db, user, b, start, minutes, now).Ok?
    ensures Inv(Propose(db, user, b, start, minutes, now).db)
  {
    var db' := Propose(db, user, b, start, minutes, now).db;
    assert BookingShape(db, b);
    forall a | 0 <= a < |db'.bookings| ensures BookingShape(db', a) { assert BookingShape(db, a); }
    forall r | 0 <= r < |db'.requests| ensures RequestShape(db', r) { assert RequestShape(db, r); }
    forall i | 0 <= i < |db'.intents| ensures IntentShape(db', i) { assert IntentShape(db, i); }
    LinkedRefs(db');
    ProposeNoDoubleBooking(db, user, b, start, minutes, now);
    forall i | 0 <= i < |db'.intents| ensures Conserved(db', i) { assert Conserved(db, i); }
    forall t | 0 <= t < |db'.tutors| ensures Defects(db', t) == Defects(db, t) {}
  }

  /** The negotiation of booking `b` is open and there is money to decide about. */
  ghost predicate OpenNegotiation(db: Db, b: nat)
    requires Linked(db) && Refs(db)
  {
    && b < |db.bookings|
    && db.bookings[b].request.Some?
    && db.requests[db.bookings[b].request.value].status == Negotiating
    && db.bookings[b].intent.Some?
  }

  lemma NegotiationIsFunded(db: Db, b: nat)
    requires Linked(db) && Refs(db) && MoneyConserved(db) && b < |db.bookings| && db.bookings[b].request.Some?
    requires db.requests[db.bookings[b].request.value].status == Negotiating
    ensures OpenNegotiation(db, b)
    ensures InEscrow(db.intents[db.bookings[b].intent.value].status)
    ensures db.intents[db.bookings[b].intent.value].amount == db.bookings[b].amount
    ensures RowsFor(db.ledger, db.bookings[b].intent.value) == 0
  {
    assert BookingShape(db, b);
    var i := db.bookings[b].intent.value;
    assert IntentShape(db, i) && Conserved(db, i);
    NoRowsNoShares(db.ledger, i);
  }

  lemma AgreeLinked(db: Db, b: nat)
    requires Linked(db) && Refs(db) && OpenNegotiation(db, b)
    requires db.requests[db.bookings[b].request.value].proposed.Some?
    ensures Linked(Agree(db, b)) && Refs(Agree(db, b))
  {
    var db', k := Agree(db, b), db.bookings[b];
    assert BookingShape(db, b);
    forall a | 0 <= a < |db'.bookings| ensures BookingShape(db', a) {
      if a < |db.bookings| { assert BookingShape(db, a); }
    }
    forall r | 0 <= r < |db'.requests| ensures RequestShape(db', r) { assert RequestShape(db, r); }
    forall i | 0 <= i < |db'.intents| ensures IntentShape(db', i) { assert IntentShape(db, i); }
    forall a, c | 0 <= a < c < |db'.bookings| && db'.bookings[a].movedTo.Some? && db'.bookings[c].movedTo.Some?
      ensures db'.bookings[a].movedTo != db'.bookings[c].movedTo
    {
      assert BookingShape(db, a) && BookingShape(db, c);
    }
    LinkedRefs(db');
  }

  /** The clone takes over the slot its original had reserved by proposing it, so nobody else's
      calendar is touched; the original lets go of everything. */
  lemma AgreeNoDoubleBooking(db: Db, b: nat)
    requires Linked(db) && Refs(db) && NoDoubleBooking(db) && OpenNegotiation(db, b)
    requires db.requests[db.bookings[b].request.value].proposed.Some?
    requires Linked(Agree(db, b)) && Refs(Agree(db, b))
    ensures NoDoubleBooking(Agree(db, b))
  {
    var db', n := Agree(db, b), |db.bookings|;
    forall a: nat, x | Reserves(db', a, x) ensures a != b && Reserves(db, if a == n then b else a, x) {
      if a < n { assert BookingShape(db, a); }
    }
    forall a, u | 0 <= a <= n
      ensures Involves(db', a, u) <==> Involves(db, if a == n then b else a, u)
    {}
  }

  lemma AgreeKeeps(db: Db, b: nat)
    requires Inv(db) && OpenNegotiation(db, b)
    requires db.requests[db.bookings[b].request.value].proposed.Some?
    ensures Inv(Agree(db, b))
  {
    var db', k := Agree(db, b), db.bookings[b];
    AgreeLinked(db, b);
    AgreeNoDoubleBooking(db, b);
    NegotiationIsFunded(db, b);
    assert BookingShape(db, b) && RequestShape(db, k.request.value);
    forall i | 0 <= i < |db'.intents| ensures Conserved(db', i) {
      assert Conserved(db, i) && IntentShape(db, i) && BookingShape(db, db.intents[i].booking);
    }
    forall t | 0 <= t < |db'.tutors| ensures Defects(db', t) == Defects(db, t) {
      forall a: nat | a < |db.bookings| ensures CountsAsDefect(db', a) == CountsAsDefect(db, a) {
        assert BookingShape(db, a);
      }
    }
  }

  lemma SettleLinked(db: Db, b: nat, outcome: Outcome)
    requires Linked(db) && Refs(db) && OpenNegotiation(db, b) && outcome != Outcome.Agreed
    ensures Linked(Settle(db, b, outcome)) && Refs(Settle(db, b, outcome))
  {
    var db' := Settle(db, b, outcome);
    assert BookingShape(db, b);
    forall a | 0 <= a < |db'.bookings| ensures BookingShape(db', a) { assert BookingShape(db, a); }
    forall r | 0 <= r < |db'.requests| ensures RequestShape(db', r) { assert RequestShape(db, r); }
    forall i | 0 <= i < |db'.intents| ensures IntentShape(db', i) { assert IntentShape(db, i); }
    LinkedRefs(db');
  }

  lemma SettleConserves(db: Db, b: nat, outcome: Outcome, i: nat)
    requires Linked(db) && Refs(db) && OpenNegotiation(db, b) && outcome != Outcome.Agreed && MoneyConserved(db)
    requires Linked(Settle(db, b, outcome)) && Refs(Settle(db, b, outcome)) && i < |db.intents|
    ensures Conserved(Settle(db, b, outcome), i)
  {
    var db', k := Settle(db, b, outcome), db.bookings[b];
    var q, x := db.requests[k.request.value], db.intents[k.intent.value];
    NegotiationIsFunded(db, b);
    assert BookingShape(db, b);
    SplitConserves(db.cuts, q.role, q.shortNotice, outcome, x.amount);
    NoRowsNoShares(db.ledger, k.intent.value);
    assert Conserved(db, i) && IntentShape(db, i) && BookingShape(db, db.intents[i].booking);
    AppendRow(db.ledger, db'.ledger[|db.ledger|], i);
  }

  lemma SettleDefectsOf(db: Db, b: nat, outcome: Outcome, t: nat)
    requires Linked(db) && Refs(db) && OpenNegotiation(db, b) && outcome != Outcome.Agreed
    requires Linked(Settle(db, b, outcome)) && Refs(Settle(db, b, outcome))
    ensures b !in Defects(db, t)
    ensures Defects(Settle(db, b, outcome), t)
            == if IsDefect(outcome) && t == db.bookings[b].tutor then Defects(db, t) + {b} else Defects(db, t)
  {
    var db', k := Settle(db, b, outcome), db.bookings[b];
    assert BookingShape(db, b) && RequestShape(db, k.request.value);
    forall a: nat | a < |db.bookings|
      ensures CountsAsDefect(db', a) == if a == b then IsDefect(outcome) else CountsAsDefect(db, a)
    {
      assert BookingShape(db, a);
    }
  }

  lemma SettleDefects(db: Db, b: nat, outcome: Outcome)
    requires Linked(db) && Refs(db) && OpenNegotiation(db, b) && outcome != Outcome.Agreed && DefectsCounted(db)
    requires Linked(Settle(db, b, outcome)) && Refs(Settle(db, b, outcome))
    ensures DefectsCounted(Settle(db, b, outcome))
  {
    var db' := Settle(db, b, outcome);
    forall t | 0 <= t < |db'.tutors| ensures db'.tutors[t].defectCount == |Defects(db', t)| {
      SettleDefectsOf(db, b, outcome, t);
    }
  }

  lemma SettleKeeps(db: Db, b: nat, outcome: Outcome)
    requires Inv(db) && OpenNegotiation(db, b) && outcome != Outcome.Agreed
    ensures Inv(Settle(db, b, outcome))
  {
    var db' := Settle(db, b, outcome);
    SettleLinked(db, b, outcome);
    forall a: nat, x | Reserves(db', a, x) ensures Reserves(db, a, x) { assert BookingShape(db, a); }
    ShrinkKeepsNoDoubleBooking(db, db');
    forall i | 0 <= i < |db.intents| ensures Conserved(db', i) { SettleConserves(db, b, outcome, i); }
    SettleDefects(db, b, outcome);
  }

  // ---- group failure and rules ------------------------------------------------------------------------

  predicate HeldGroup(db: Db, b: nat)
    requires Refs(db)
  {
    && b < |db.bookings| && db.bookings[b].phase == Gathering
    && db.bookings[b].intent.Some? && db.intents[db.bookings[b].intent.value].status == HeldInEscrow
  }

  lemma FailHeldGroupLinked(db: Db, b: nat, reason: RefundReason)
    requires Linked(db) && Refs(db) && HeldGroup(db, b)
    ensures Linked(FailGroup(db, b, reason).db) && Refs(FailGroup(db, b, reason).db)
  {
    var db' := FailGroup(db, b, reason).db;
    assert BookingShape(db, b);
    forall a | 0 <= a < |db'.bookings| ensures BookingShape(db', a) { assert BookingShape(db, a); }
    forall r | 0 <= r < |db'.requests| ensures RequestShape(db', r) { assert RequestShape(db, r); }
    forall i | 0 <= i < |db'.intents| ensures IntentShape(db', i) { assert IntentShape(db, i); }
    LinkedRefs(db');
  }

  lemma FailHeldGroupConserves(db: Db, b: nat, reason: RefundReason, i: nat)
    requires Linked(db) && Refs(db) && HeldGroup(db, b) && MoneyConserved(db)
    requires Refs(FailGroup(db, b, reason).db) && i < |db.intents|
    ensures Conserved(FailGroup(db, b, reason).db, i)
  {
    var db', host := FailGroup(db, b, reason).db, db.bookings[b].intent.value;
    assert BookingShape(db, b) && Conserved(db, host);
    NoRowsNoShares(db.ledger, host);
    assert Conserved(db, i) && IntentShape(db, i);
    AppendRow(db.ledger, db'.ledger[|db.ledger|], i);
  }

  lemma FailGroupKeeps(db: Db, b: nat, reason: RefundReason)
    requires Inv(db) && FailGroup(db, b, reason).Ok?
    ensures Inv(FailGroup(db, b, reason).db)
  {
    var db' := FailGroup(db, b, reason).db;
    if HeldGroup(db, b) {
      FailHeldGroupLinked(db, b, reason);
      ShrinkKeepsNoDoubleBooking(db, db');
      forall i | 0 <= i < |db.intents| ensures Conserved(db', i) { FailHeldGroupConserves(db, b, reason, i); }
      forall t | 0 <= t < |db'.tutors| ensures Defects(db', t) == Defects(db, t) {}
    } else {
      assert BookingShape(db, b);
      RestatedKeeps(db, db', b);
    }
  }

  lemma SetRulesKeeps(db: Db, t: nat, rules: seq<Rule>)
    requires Inv(db) && SetRules(db, t, rules).Ok?
    ensures Inv(SetRules(db, t, rules).db)
  {
    var db' := SetRules(db, t, rules).db;
    forall b | 0 <= b < |db'.bookings| ensures BookingShape(db', b) { assert BookingShape(db, b); }
    forall r | 0 <= r < |db'.requests| ensures RequestShape(db', r) { assert RequestShape(db, r); }
    forall i | 0 <= i < |db'.intents| ensures IntentShape(db', i) { assert IntentShape(db, i); }
    LinkedRefs(db');
    ShrinkKeepsNoDoubleBooking(db, db');
    forall i | 0 <= i < |db'.intents| ensures Conserved(db', i) { assert Conserved(db, i); }
    forall s | 0 <= s < |db'.tutors| ensures Defects(db', s) == Defects(db, s) {}
  }
}
