/** Whole negotiations, from the request to their end: who is paid what, who is blamed, and where the
    class goes, told by who asked, on what notice and what the other side did. */
module Settlements {
  import opened Basics
  import opened RefundPolicy
  import opened Bookings
  import opened BookingInvariants
  import opened BookingRuns

  /** The only new ledger row and the only changed intent are those of booking `b`. */
  predicate Pays(db: Db, db': Db, b: nat, reason: RefundReason, student: int, tutor: int, platform: int)
    requires b < |db.bookings| && BookingRefs(db, db.bookings[b])
  {
    var price, i := db.bookings[b].amount, db.bookings[b].intent;
    && i.Some?
    && |db'.ledger| == |db.ledger| + 1 && db'.ledger[..|db.ledger|] == db.ledger
    && (var row := db'.ledger[|db.ledger|];
        row.intent == i.value && row.booking == b && row.original == price && row.reason == reason
        && row.student == student && row.tutor == tutor && row.platform == platform)
    && tutor >= 0
    && db'.intents == db.intents[i.value := Intent(b, db.intents[i.value].payer, tutor,
                                                   if tutor > 0 then ReleasedForPayout else IntentStatus.Refunded)]
  }

  /** The tutor's defect count grew by that much and no other profile field of anyone changed. */
  predicate Blames(db: Db, db': Db, t: nat, more: nat)
    requires t < |db.tutors|
  {
    db'.tutors == db.tutors[t := db.tutors[t].(defectCount := db.tutors[t].defectCount + more)]
  }

  /** The booking and its request `r` are closed under that outcome, nothing else in those tables. */
  predicate Closes(db: Db, db': Db, b: nat, r: nat, status: BookingStatus, outcome: Outcome)
    requires b < |db.bookings| && r < |db.requests|
  {
    && db'.bookings == db.bookings[b := db.bookings[b].(status := status)]
    && db'.requests == db.requests[r := db.requests[r].(status := Expired, resolvedAs := Some(outcome))]
  }

  function TutorShare(db: Db, price: nat): int {
    Portion(price, db.cuts.tutor)
  }

  function PlatformShare(db: Db, price: nat): int {
    Portion(price, db.cuts.platform)
  }

  /** Money of a negotiation without a new slot: everything back to the student, except after a
      student's request on short notice that the other side did answer. */
  predicate SharesFollow(db: Db, db': Db, b: nat, reason: RefundReason, splits: bool)
    requires b < |db.bookings| && BookingRefs(db, db.bookings[b])
  {
    var price := db.bookings[b].amount;
    if splits
    then Pays(db, db', b, reason, price - TutorShare(db, price) - PlatformShare(db, price),
              TutorShare(db, price), PlatformShare(db, price))
    else Pays(db, db', b, reason, price, 0, 0)
  }

  lemma SplitByCase(db: Db, role: Role, shortNotice: bool, outcome: Outcome, price: nat)
    requires outcome != Outcome.Agreed
    ensures ComputeSplit(db.cuts, role, shortNotice, outcome, price)
            == if outcome == NoAgreement && role == Student && shortNotice
               then Split(TutorShare(db, price), PlatformShare(db, price),
                          price - TutorShare(db, price) - PlatformShare(db, price))
               else Split(0, 0, price)
    ensures TutorShare(db, price) >= 0
  {
    PortionRange(price, db.cuts.tutor);
  }

  /** The intent and the ledger after the settlement, for whatever the split is. */
  lemma SettlementWrites(db: Db, b: nat, outcome: Outcome, s: Split)
    requires Inv(db) && OpenNegotiation(db, b)
    requires var k, q := db.bookings[b], db.requests[db.bookings[b].request.value];
             db.intents[k.intent.value].amount == k.amount
             && s == ComputeSplit(db.cuts, q.role, q.shortNotice, outcome, k.amount) && s.tutor >= 0
    ensures Pays(db, Settle(db, b, outcome), b, ReasonCode(outcome), s.student, s.tutor, s.platform)
  {
    assert BookingShape(db, b);
    assert db.intents[db.bookings[b].intent.value].booking == b;
  }

  lemma SettlementPays(db: Db, b: nat, outcome: Outcome)
    requires Inv(db) && OpenNegotiation(db, b) && outcome != Outcome.Agreed
    ensures var q := db.requests[db.bookings[b].request.value];
            SharesFollow(db, Settle(db, b, outcome), b, ReasonCode(outcome),
                         outcome == NoAgreement && q.role == Student && q.shortNotice)
  {
    var k := db.bookings[b];
    var q := db.requests[k.request.value];
    NegotiationIsFunded(db, b);
    SplitByCase(db, q.role, q.shortNotice, outcome, k.amount);
    SettlementWrites(db, b, outcome, ComputeSplit(db.cuts, q.role, q.shortNotice, outcome, k.amount));
  }

  /** What `initiate` leaves behind. */
  lemma Asked(db: Db, user: User, b: nat, reasonLength: nat, now: int)
    requires Inv(db) && Initiate(db, user, b, reasonLength, now).Ok?
    ensures var db' := Initiate(db, user, b, reasonLength, now).db;
            && Inv(db') && |db'.requests| == |db.requests| + 1 && OpenNegotiation(db', b)
            && db'.bookings[b].request == Some(|db.requests|) && db'.requests[|db.requests|].booking == b
            && db'.requests[|db.requests|].role == (if db.bookings[b].student == user then Student else Tutor)
            && (db'.requests[|db.requests|].shortNotice <==> db.bookings[b].start < now + 43_200_000)
            && Participant(db', b, user)
  {
    InitiateKeeps(db, user, b, reasonLength, now);
    NegotiationIsFunded(Initiate(db, user, b, reasonLength, now).db, b);
  }

  /** In state j of an orderly run the user opens a negotiation about booking `b`; in state k it is still open. */
  ghost predicate OpenSince(dbs: seq<Db>, es: seq<Event>, j: nat, k: nat, user: User, b: nat, reasonLength: nat,
                            now: int)
  {
    && IsRun(dbs, es) && Inv(dbs[0]) && j < k <= |es| && Refs(dbs[j])
    && es[j] == DoInitiate(user, b, reasonLength, now) && Initiate(dbs[j], user, b, reasonLength, now).Ok?
    && |dbs[j].requests| < |dbs[k].requests| && dbs[k].requests[|dbs[j].requests|].status == Negotiating
  }

  /** Whatever happened in between, reports and further proposals included: the request is still about the same
      people and the same price, and says who asked and on what notice. */
  lemma StillAsAsked(dbs: seq<Db>, es: seq<Event>, j: nat, k: nat, user: User, b: nat, reasonLength: nat, now: int)
    requires OpenSince(dbs, es, j, k, user, b, reasonLength, now)
    ensures Inv(dbs[k]) && OpenNegotiation(dbs[k], b) && dbs[k].bookings[b].request == Some(|dbs[j].requests|)
    ensures var q, k', k0 := dbs[k].requests[|dbs[j].requests|], dbs[k].bookings[b], dbs[j].bookings[b];
            && q.booking == b && q.role == (if k0.student == user then Student else Tutor)
            && (q.shortNotice <==> k0.start < now + 43_200_000)
            && k'.student == k0.student && k'.tutor == k0.tutor && k'.amount == k0.amount
  {
    var r := |dbs[j].requests|;
    RunKeepsInv(dbs, es, j);
    RunKeepsInv(dbs, es, k);
    assert Moves(dbs[j], es[j], dbs[j + 1]);
    Asked(dbs[j], user, b, reasonLength, now);
    RunEvolves(dbs, es, j + 1, k);
    assert BookingEvolves(dbs[j + 1].bookings[b], dbs[k].bookings[b]);
    assert RequestEvolves(dbs[j + 1].requests[r], dbs[k].requests[r]);
    NegotiationIsFunded(dbs[k], b);
  }

  /** Nobody agrees within the two hours, whatever else is done meanwhile. The tutor is blamed exactly if the other
      side stayed silent, whichever side asked; money is split only after a student's late request that was answered. */
  lemma TimedOutNegotiation(dbs: seq<Db>, es: seq<Event>, j: nat, k: nat, user: User, b: nat, reasonLength: nat,
                            now: int, engaged: bool)
    requires OpenSince(dbs, es, j, k, user, b, reasonLength, now)
    ensures Refs(dbs[k]) && b < |dbs[j].bookings| && b < |dbs[k].bookings|
    ensures var db, r, asked := dbs[k], |dbs[j].requests|, dbs[j].bookings[b];
            var byStudent := asked.student == user;
            && db.bookings[b].amount == asked.amount && asked.tutor < |db.tutors|
            && ResolveTimeout(db, r, engaged).Ok?
            && var after := ResolveTimeout(db, r, engaged).db;
            && SharesFollow(db, after, b,
                            if engaged then PostponeNoAgreement
                            else if byStudent then PostponeUnresponsive else PostponeTutorInitiated,
                            engaged && byStudent && asked.start < now + 43_200_000)
            && Blames(db, after, asked.tutor, if engaged then 0 else 1)
            && if engaged then Closes(db, after, b, r, CancelledNoAgreement, NoAgreement)
               else if byStudent then Closes(db, after, b, r, CancelledTutorUnresponsive, Unresponsive)
               else Closes(db, after, b, r, CancelledTutorInitiated, TutorInitiatedNoAgreement)
  {
    StillAsAsked(dbs, es, j, k, user, b, reasonLength, now);
    SettlementPays(dbs[k], b, TimeoutOutcome(dbs[k].requests[|dbs[j].requests|].role, engaged));
  }

  /** Either side calls it off. Then the tutor is blamed exactly if the tutor had asked. */
  lemma CalledOffNegotiation(dbs: seq<Db>, es: seq<Event>, j: nat, k: nat, user: User, b: nat, reasonLength: nat,
                             now: int, canceller: User)
    requires OpenSince(dbs, es, j, k, user, b, reasonLength, now)
    ensures Refs(dbs[k]) && b < |dbs[j].bookings| && b < |dbs[k].bookings|
    ensures var db, r, asked := dbs[k], |dbs[j].requests|, dbs[j].bookings[b];
            var byStudent := asked.student == user;
            && db.bookings[b].amount == asked.amount && asked.tutor < |db.tutors|
            && (CancelPostpone(db, canceller, b).Ok? <==> Participant(db, b, canceller))
            && (Participant(db, b, canceller) ==>
                  var after := CancelPostpone(db, canceller, b).db;
                  && SharesFollow(db, after, b, if byStudent then PostponeNoAgreement else PostponeTutorInitiated,
                                  byStudent && asked.start < now + 43_200_000)
                  && Blames(db, after, asked.tutor, if byStudent then 0 else 1)
                  && if byStudent then Closes(db, after, b, r, CancelledNoAgreement, NoAgreement)
                     else Closes(db, after, b, r, CancelledTutorInitiated, TutorInitiatedNoAgreement))
  {
    StillAsAsked(dbs, es, j, k, user, b, reasonLength, now);
    SettlementPays(dbs[k], b, CancelOutcome(dbs[k].requests[|dbs[j].requests|].role));
  }

  /** On everybody's calendar the new booking holds what `b` had proposed and nothing else, `b` holds nothing any
      more, and all others hold what they held. */
  ghost predicate Swaps(db: Db, db': Db, b: nat, n: nat)
    requires Refs(db) && b < |db.bookings|
  {
    && Refs(db')
    && forall a: nat, x ::
         Reserves(db', a, x) <==> if a == n then Some(x) == ProposedSlot(db, b) else a != b && Reserves(db, a, x)
  }

  lemma AgreementSwaps(db: Db, b: nat)
    requires Inv(db) && OpenNegotiation(db, b) && db.requests[db.bookings[b].request.value].proposed.Some?
    requires Inv(Agree(db, b))
    ensures Swaps(db, Agree(db, b), b, |db.bookings|)
  {
    var db' := Agree(db, b);
    forall a: nat | a < |db.bookings|
      ensures ProposedSlot(db', a) == if a == b then None else ProposedSlot(db, a)
    {
      assert BookingShape(db, a) && BookingShape(db, b);
    }
  }

  /** An agreement moves the class and its money: a paid class for the same people at the same price
      and at the proposed time now holds the untouched intent, the original is kept as postponed
      without money, no ledger row is written and nobody is blamed. */
  lemma AgreementMovesTheClass(db: Db, user: User, b: nat)
    requires Inv(db) && Confirm(db, user, b).Ok?
    ensures var db', n, k := Confirm(db, user, b).db, |db.bookings|, db.bookings[b];
            && |db'.bookings| == n + 1
            && (var c := db'.bookings[n];
                && c.student == k.student && c.tutor == k.tutor && c.amount == k.amount && c.status == Paid
                && ProposedSlot(db, b) == Some(OwnSlot(c))
                && c.intent == k.intent && c.intent.Some? && c.request.None? && c.reportEnds.None?)
            && db'.bookings[b].status == Postponed && db'.bookings[b].intent.None? && db'.bookings[b].movedTo == Some(n)
            && OwnSlot(db'.bookings[b]) == OwnSlot(k) && ProposedSlot(db', b).None?
            && (forall a :: 0 <= a < n && a != b ==> db'.bookings[a] == db.bookings[a])
            && Swaps(db, db', b, n)
            && db'.intents == db.intents[k.intent.value := db.intents[k.intent.value].(booking := n)]
            && db'.ledger == db.ledger && db'.tutors == db.tutors
  {
    ConfirmKeeps(db, user, b);
    AgreementSwaps(db, b);
  }
}
