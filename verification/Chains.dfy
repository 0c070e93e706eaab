/** Originals and clones: where the money of a postponed class is, and that chains never meet. */
module Chains {
  import opened Basics
  import opened Runs
  import opened Bookings
  import opened BookingInvariants
  import opened BookingRuns

  predicate Forward(bookings: seq<Booking>) {
    forall b :: 0 <= b < |bookings| ==> MoveShape(bookings, b)
  }

  function Next(bookings: seq<Booking>, b: nat): Option<nat>
    requires b < |bookings|
  {
    bookings[b].movedTo
  }

  /** The booking that the class has become by now. */
  function Last(bookings: seq<Booking>, b: nat): (l: nat)
    requires Forward(bookings) && b < |bookings|
    ensures b <= l < |bookings| && Next(bookings, l).None?
    decreases |bookings| - b
  {
    if Next(bookings, b).None? then b
    else
      assert MoveShape(bookings, b);
      Last(bookings, Next(bookings, b).value)
  }

  predicate Reaches(bookings: seq<Booking>, a: nat, b: nat)
    requires Forward(bookings) && a < |bookings|
    decreases |bookings| - a
  {
    a == b || (Next(bookings, a).Some? && (assert MoveShape(bookings, a); Reaches(bookings, Next(bookings, a).value, b)))
  }

  lemma InvForward(db: Db)
    requires Inv(db)
    ensures Forward(db.bookings)
  {
    forall b | 0 <= b < |db.bookings| ensures MoveShape(db.bookings, b) { assert BookingShape(db, b); }
  }

  /** The end of a class's chain: same people, same price, and if the class was ever moved, it holds
      the one intent, on which the class's price is what is left plus what was split off. */
  lemma {:induction false} MoneyIsOnTheLast(db: Db, b: nat)
    requires Inv(db) && b < |db.bookings|
    ensures Forward(db.bookings)
    ensures var k, l := db.bookings[b], db.bookings[Last(db.bookings, b)];
            && l.student == k.student && l.tutor == k.tutor && l.amount == k.amount
            && (k.movedTo.Some? ==>
                  && k.intent.None? && l.intent.Some?
                  && db.intents[l.intent.value].booking == Last(db.bookings, b)
                  && k.amount == db.intents[l.intent.value].amount + Shares(db.ledger, l.intent.value))
    decreases |db.bookings| - b
  {
    InvForward(db);
    assert BookingShape(db, b);
    if Next(db.bookings, b).Some? {
      var c := Next(db.bookings, b).value;
      MoneyIsOnTheLast(db, c);
      assert BookingShape(db, c);
      if Next(db.bookings, c).None? {
        assert Conserved(db, db.bookings[c].intent.value);
      }
    }
  }

  /** No intent sits on a booking that has been moved away. */
  lemma IntentsSitOnLasts(db: Db, i: nat)
    requires Inv(db) && i < |db.intents|
    ensures Forward(db.bookings) && Last(db.bookings, db.intents[i].booking) == db.intents[i].booking
  {
    InvForward(db);
    assert IntentShape(db, i) && BookingShape(db, db.intents[i].booking);
  }

  lemma {:induction false} Predecessor(bookings: seq<Booking>, a: nat, b: nat) returns (p: nat)
    requires Forward(bookings) && a < |bookings| && Reaches(bookings, a, b) && a != b
    ensures p < |bookings| && Reaches(bookings, a, p) && Next(bookings, p) == Some(b)
    decreases |bookings| - a
  {
    assert MoveShape(bookings, a);
    var c := Next(bookings, a).value;
    if c == b {
      p := a;
    } else {
      p := Predecessor(bookings, c, b);
    }
  }

  lemma {:induction false} ReachesLast(bookings: seq<Booking>, a: nat)
    requires Forward(bookings) && a < |bookings|
    ensures Reaches(bookings, a, Last(bookings, a))
    decreases |bookings| - a
  {
    if Next(bookings, a).Some? {
      assert MoveShape(bookings, a);
      ReachesLast(bookings, Next(bookings, a).value);
    }
  }

  /** Two classes that end in the same booking are two points of one chain. */
  lemma {:induction false} ChainsNeverMerge(bookings: seq<Booking>, a: nat, c: nat)
    requires Forward(bookings) && MovesApart(bookings) && a < |bookings| && c < |bookings|
    requires Last(bookings, a) == Last(bookings, c)
    ensures Reaches(bookings, a, c) || Reaches(bookings, c, a)
    decreases 2 * |bookings| - a - c
  {
    if Next(bookings, a).None? || Next(bookings, c).None? {
      ReachesLast(bookings, a);
      ReachesLast(bookings, c);
    } else {
      assert MoveShape(bookings, a) && MoveShape(bookings, c);
      var a', c' := Next(bookings, a).value, Next(bookings, c).value;
      ChainsNeverMerge(bookings, a', c');
      if a' != c' {
        if Reaches(bookings, a', c') {
          var p := Predecessor(bookings, a', c');
          assert p == c;
        } else {
          var p := Predecessor(bookings, c', a');
          assert p == a;
        }
      } else {
        assert a == c;
      }
    }
  }

  // ---- along a run -----------------------------------------------------------------------------------

  lemma {:induction false} ReachesFurther(bookings: seq<Booking>, a: nat, b: nat, c: nat)
    requires Forward(bookings) && a < |bookings| && Reaches(bookings, a, b) && b < |bookings| && Reaches(bookings, b, c)
    ensures Reaches(bookings, a, c)
    decreases |bookings| - a
  {
    if a != b {
      assert MoveShape(bookings, a);
      ReachesFurther(bookings, Next(bookings, a).value, b, c);
    }
  }

  predicate LinksStay(bookings: seq<Booking>, bookings': seq<Booking>) {
    |bookings| <= |bookings'|
    && forall b :: 0 <= b < |bookings| && bookings[b].movedTo.Some? ==> bookings'[b].movedTo == bookings[b].movedTo
  }

  lemma {:induction false} ReachesStill(bookings: seq<Booking>, bookings': seq<Booking>, a: nat, b: nat)
    requires Forward(bookings) && Forward(bookings') && LinksStay(bookings, bookings')
    requires a < |bookings| && Reaches(bookings, a, b)
    ensures Reaches(bookings', a, b)
    decreases |bookings| - a
  {
    if a != b {
      assert MoveShape(bookings, a);
      ReachesStill(bookings, bookings', Next(bookings, a).value, b);
    }
  }

  lemma {:induction false} ReachesInside(bookings: seq<Booking>, a: nat, b: nat)
    requires Forward(bookings) && a < |bookings| && Reaches(bookings, a, b)
    ensures b < |bookings| && Last(bookings, b) == Last(bookings, a)
    decreases |bookings| - a
  {
    if a != b {
      assert MoveShape(bookings, a);
      ReachesInside(bookings, Next(bookings, a).value, b);
    }
  }

  /** Links stay, and every intent is still on its booking or further down that booking's chain. */
  ghost predicate Carries(db: Db, db': Db) {
    && Forward(db.bookings) && Forward(db'.bookings)
    && LinksStay(db.bookings, db'.bookings) && |db.intents| <= |db'.intents|
    && forall i :: 0 <= i < |db.intents| ==>
         db.intents[i].booking < |db'.bookings| && Reaches(db'.bookings, db.intents[i].booking, db'.intents[i].booking)
  }

  /** A step moves no intent, except that an agreement moves the class's intent to the clone. */
  predicate IntentsStay(db: Db, db': Db) {
    |db.intents| <= |db'.intents| && forall i :: 0 <= i < |db.intents| ==>
      && db.intents[i].booking < |db'.bookings|
      && (db'.intents[i].booking == db.intents[i].booking
          || db'.bookings[db.intents[i].booking].movedTo == Some(db'.intents[i].booking))
  }

  lemma AgreeIntentsStay(db: Db, b: nat)
    requires Inv(db) && OpenNegotiation(db, b)
    requires db.requests[db.bookings[b].request.value].proposed.Some?
    ensures IntentsStay(db, Agree(db, b))
  {
    assert BookingShape(db, b);
  }

  lemma NegotiationIntentsStay(db: Db, e: Event)
    requires Inv(db) && Step(db, e).Ok? && (e.DoConfirm? || e.DoCancelPostpone? || e.DoTimeout?)
    ensures IntentsStay(db, Step(db, e).db)
  {
    match e
    case DoConfirm(user, b) => ConfirmKeeps(db, user, b); AgreeIntentsStay(db, b);
    case DoCancelPostpone(user, b) => CancelPostponeKeeps(db, user, b);
    case DoTimeout(r, engaged) => TimeoutKeeps(db, r, engaged);
  }

  lemma StepIntentsStay(db: Db, e: Event)
    requires Inv(db) && Step(db, e).Ok?
    ensures IntentsStay(db, Step(db, e).db)
  {
    if OnBooking(e) {
      OnBookingRestates(db, e);
    } else {
      match e
      case DoConfirm(_, _) => NegotiationIntentsStay(db, e);
      case DoCancelPostpone(_, _) => NegotiationIntentsStay(db, e);
      case DoTimeout(_, _) => NegotiationIntentsStay(db, e);
      case DoConfirmGroup(i, now) => GroupConfirmationRestates(db, i, now);
      case _ =>
    }
  }

  lemma MoveCarries(db: Db, e: Event, db': Db)
    requires Inv(db) && Moves(db, e, db')
    ensures Carries(db, db')
  {
    if Step(db, e).Ok? {
      StepKeeps(db, e);
      StepEvolves(db, e);
      StepIntentsStay(db, e);
    }
    InvForward(db);
    InvForward(db');
    assert IntentsStay(db, db');
    assert LinksStay(db.bookings, db'.bookings) by {
      forall b | 0 <= b < |db.bookings| && db.bookings[b].movedTo.Some? ensures db'.bookings[b].movedTo == db.bookings[b].movedTo {
        assert BookingEvolves(db.bookings[b], db'.bookings[b]);
      }
    }
  }

  lemma CarriesTwice(a: Db, b: Db, c: Db)
    requires Carries(a, b) && Carries(b, c)
    ensures Carries(a, c)
  {
    forall i | 0 <= i < |a.intents|
      ensures a.intents[i].booking < |c.bookings| && Reaches(c.bookings, a.intents[i].booking, c.intents[i].booking)
    {
      ReachesStill(b.bookings, c.bookings, a.intents[i].booking, b.intents[i].booking);
      ReachesInside(b.bookings, a.intents[i].booking, b.intents[i].booking);
      ReachesFurther(c.bookings, a.intents[i].booking, b.intents[i].booking, c.intents[i].booking);
    }
  }

  /** In every state of every run the originals and clones form disjoint chains, and the last booking of a
      moved class holds its one intent with the price accounted for ... */
  lemma ChainsInEveryState(dbs: seq<Db>, es: seq<Event>, k: nat, a: nat, b: nat)
    requires IsRun(dbs, es) && Inv(dbs[0]) && k <= |es| && a < |dbs[k].bookings| && b < |dbs[k].bookings|
    ensures Inv(dbs[k]) && Forward(dbs[k].bookings)
    ensures var db := dbs[k];
            var l := Last(db.bookings, a);
            && (l == Last(db.bookings, b) ==> Reaches(db.bookings, a, b) || Reaches(db.bookings, b, a))
            && (db.bookings[a].movedTo.Some? ==>
                  && db.bookings[a].intent.None? && db.bookings[l].intent.Some?
                  && db.bookings[a].amount == db.intents[db.bookings[l].intent.value].amount
                                              + Shares(db.ledger, db.bookings[l].intent.value))
  {
    RunKeepsInv(dbs, es, k);
    MoneyIsOnTheLast(dbs[k], a);
    if Last(dbs[k].bookings, a) == Last(dbs[k].bookings, b) {
      ChainsNeverMerge(dbs[k].bookings, a, b);
    }
  }

  /** ... and between two states of a run a chain only grows, and an intent goes where its class goes: to the
      end of the chain of the booking it was on. */
  lemma IntentFollowsItsClass(dbs: seq<Db>, es: seq<Event>, j: nat, k: nat, i: nat, a: nat, c: nat)
    requires IsRun(dbs, es) && Inv(dbs[0]) && j <= k <= |es| && i < |dbs[j].intents|
    requires Inv(dbs[j]) && Forward(dbs[j].bookings) && a < |dbs[j].bookings| && Reaches(dbs[j].bookings, a, c)
    ensures Forward(dbs[k].bookings)
    ensures a < |dbs[k].bookings| && Reaches(dbs[k].bookings, a, c)
    ensures i < |dbs[k].intents| && dbs[j].intents[i].booking < |dbs[k].bookings|
    ensures dbs[k].intents[i].booking == Last(dbs[k].bookings, dbs[j].intents[i].booking)
  {
    RunKeepsInv(dbs, es, k);
    forall db, e, db' | Inv(db) && Moves(db, e, db') ensures Inv(db') && Carries(db, db') {
      if Step(db, e).Ok? { StepKeeps(db, e); }
      MoveCarries(db, e, db');
    }
    forall db | Inv(db) ensures Carries(db, db) { InvForward(db); LinkedRefs(db); }
    forall x, y, z | Carries(x, y) && Carries(y, z) ensures Carries(x, z) { CarriesTwice(x, y, z); }
    RelatesAlong(Moves, Inv, Carries, dbs, es, j, k);
    ReachesStill(dbs[j].bookings, dbs[k].bookings, a, c);
    IntentsSitOnLasts(dbs[k], i);
    ReachesInside(dbs[k].bookings, dbs[j].intents[i].booking, dbs[k].intents[i].booking);
  }
}
