/** `create` as it runs: checks against the snapshot its serializable transaction began with, and a
    commit that the database aborts when a row it should have seen was inserted meanwhile. */
module ConcurrentCreate {
  import opened Basics
  import opened RefundPolicy
  import opened Runs
  import opened Bookings
  import opened BookingInvariants
  import opened BookingRuns

  /** What the caller asked for, and when. */
  datatype Wish = Wish(user: User, tutor: nat, start: int, minutes: nat, seats: Option<nat>, now: int)

  function AsEvent(w: Wish): Event {
    DoCreate(w.user, w.tutor, w.start, w.minutes, w.seats, w.now)
  }

  /** An open transaction and the database it reads. */
  datatype Tx = Tx(wish: Wish, snapshot: Db)

  datatype System = System(db: Db, open: map<nat, Tx>)

  datatype Move =
    | Begin(id: nat, wish: Wish)
    | Commit(id: nat, spurious: bool)
    | Other(event: Event)

  /** Steps outside a serializable transaction that may interleave: all that neither claim calendar
      time nor edit weekly rules. (A review that revives a booking claims time, too.) */
  predicate MayInterleave(e: Event) {
    !e.DoCreate? && !e.DoPropose? && !e.DoConfirm? && !e.DoSetRules?
  }

  /** A row inserted since the snapshot answers the guard's query for one of the two users. */
  ghost predicate Phantom(db: Db, tx: Tx)
    requires Refs(db) && tx.wish.tutor < |db.tutors|
  {
    exists b: nat :: |tx.snapshot.bookings| <= b < |db.bookings|
      && (Involves(db, b, tx.wish.user) || Involves(db, b, db.tutors[tx.wish.tutor].user))
      && Active(db.bookings[b].status) && Overlap(OwnSlot(db.bookings[b]), Lesson(tx.wish.start, tx.wish.minutes))
  }

  /** One move. A transaction whose checks fail never opens; a commit always ends it, and inserts
      only if there is no phantom (the database may also abort for no reason of ours). */
  ghost predicate SystemMoves(s: System, m: Move, s': System) {
    Refs(s.db) &&
    match m
    case Begin(id, w) =>
      && id !in s.open
      && s' == (if Step(s.db, AsEvent(w)).Ok? then s.(open := s.open[id := Tx(w, s.db)]) else s)
    case Commit(id, spurious) =>
      && id in s.open
      && s.open[id].wish.tutor < |s.db.tutors|
      && (var w := s.open[id].wish;
          var inserted := s.db.bookings + [NewBooking(s.db, w.user, w.tutor, w.start, w.minutes, w.seats)];
          s' == System(if spurious || Phantom(s.db, s.open[id]) then s.db else s.db.(bookings := inserted),
                       s.open - {id}))
    case Other(e) =>
      && MayInterleave(e) && !Revives(s.db, e)
      && Moves(s.db, e, s'.db)
      && s'.open == s.open
  }

  ghost predicate IsSystemRun(ss: seq<System>, ms: seq<Move>) {
    IsRunOf(SystemMoves, ss, ms)
  }

  // ---- a snapshot never hides a claim except one that is a phantom ---------------------------------------

  predicate SameProfiles(a: Db, b: Db) {
    && a.zone == b.zone
    && |a.tutors| == |b.tutors|
    && (forall t :: 0 <= t < |a.tutors| ==>
          b.tutors[t] == a.tutors[t].(defectCount := b.tutors[t].defectCount))
  }

  predicate Inherited(k: Booking, k': Booking) {
    && k'.student == k.student && k'.tutor == k.tutor && k'.start == k.start && k'.minutes == k.minutes
    && (Active(k'.status) ==> Active(k.status))
  }

  /** Everything claimed now was claimed in the snapshot already, or is the own slot of a booking
      inserted since. */
  ghost predicate Since(snap: Db, db: Db) {
    && Refs(snap) && Refs(db)
    && SameProfiles(snap, db)
    && |snap.bookings| <= |db.bookings|
    && (forall b :: 0 <= b < |db.bookings| && ProposedSlot(db, b).Some? ==>
          b < |snap.bookings| && ProposedSlot(snap, b) == ProposedSlot(db, b))
    && (forall b :: 0 <= b < |snap.bookings| ==> Inherited(snap.bookings[b], db.bookings[b]))
  }

  lemma RestatedSince(db: Db, db': Db, b: nat)
    requires Inv(db) && Inv(db') && Restated(db, db', b)
    ensures Since(db, db')
  {
  }

  lemma SlipSince(db: Db, e: Event)
    requires Inv(db) && Step(db, e).Ok? && (e.DoUploadSlip? || e.DoApproveSlip? || e.DoConfirmGroup?)
    requires !Revives(db, e) && Inv(Step(db, e).db)
    ensures Since(db, Step(db, e).db)
  {
    if e.DoConfirmGroup? {
      GroupConfirmationRestates(db, e.i, e.now);
      RestatedSince(db, Step(db, e).db, db.intents[e.i].booking);
    }
  }

  lemma InitiateSince(db: Db, user: User, b: nat, reasonLength: nat, now: int)
    requires Inv(db) && Initiate(db, user, b, reasonLength, now).Ok? && Inv(Initiate(db, user, b, reasonLength, now).db)
    ensures Since(db, Initiate(db, user, b, reasonLength, now).db)
  {
    var db' := Initiate(db, user, b, reasonLength, now).db;
    forall a | 0 <= a < |db'.bookings| && ProposedSlot(db', a).Some? ensures ProposedSlot(db, a) == ProposedSlot(db', a) {
      assert BookingShape(db, a);
    }
  }

  lemma SettleSince(db: Db, b: nat, outcome: Outcome)
    requires Inv(db) && OpenNegotiation(db, b) && Inv(Settle(db, b, outcome))
    ensures Since(db, Settle(db, b, outcome))
  {
    var db' := Settle(db, b, outcome);
    forall a | 0 <= a < |db'.bookings| && ProposedSlot(db', a).Some? ensures ProposedSlot(db, a) == ProposedSlot(db', a) {
      assert BookingShape(db, a) && BookingShape(db, b);
    }
  }

  lemma SinceNow(db: Db)
    requires Inv(db)
    ensures Since(db, db)
  {
  }

  lemma InterleavedStepSince(db: Db, e: Event)
    requires Inv(db) && Step(db, e).Ok? && MayInterleave(e) && !Revives(db, e) && Inv(Step(db, e).db)
    ensures Since(db, Step(db, e).db)
  {
    if OnBooking(e) {
      OnBookingRestates(db, e);
      if Step(db, e).db == db { SinceNow(db); } else { RestatedSince(db, Step(db, e).db, e.b); }
    } else {
      match e
      case DoUploadSlip(_, _) => SlipSince(db, e);
      case DoApproveSlip(_, _) => SlipSince(db, e);
      case DoConfirmGroup(_, _) => SlipSince(db, e);
      case DoInitiate(user, b, reasonLength, now) => InitiateSince(db, user, b, reasonLength, now);
      case DoCancelPostpone(user, b) =>
        CancelPostponeKeeps(db, user, b);
        SettleSince(db, b, CancelOutcome(db.requests[db.bookings[b].request.value].role));
      case DoTimeout(r, engaged) =>
        TimeoutKeeps(db, r, engaged);
        if r < |db.requests| && db.requests[r].status == Negotiating {
          SettleSince(db, db.requests[r].booking, TimeoutOutcome(db.requests[r].role, engaged));
        } else {
          SinceNow(db);
        }
      case _ =>
    }
  }

  lemma SinceTwice(a: Db, b: Db, c: Db)
    requires Since(a, b) && Since(b, c)
    ensures Since(a, c)
  {
    forall k | 0 <= k < |a.bookings| ensures Inherited(a.bookings[k], c.bookings[k]) {
      assert Inherited(a.bookings[k], b.bookings[k]) && Inherited(b.bookings[k], c.bookings[k]);
    }
  }

  lemma BookingHitIsOldOrPhantom(snap: Db, db: Db, w: Wish, u: User)
    requires Since(snap, db) && w.tutor < |db.tutors|
    requires u == w.user || u == db.tutors[w.tutor].user
    ensures BookingHit(db, u, Lesson(w.start, w.minutes), None) ==>
              BookingHit(snap, u, Lesson(w.start, w.minutes), None) || Phantom(db, Tx(w, snap))
  {
    var span := Lesson(w.start, w.minutes);
    if b: nat :| b < |db.bookings| && Involves(db, b, u) && Active(db.bookings[b].status)
                 && Overlap(OwnSlot(db.bookings[b]), span) {
      if b < |snap.bookings| {
        assert Inherited(snap.bookings[b], db.bookings[b]);
        assert BookingHit(snap, u, span, None);
      } else {
        assert Phantom(db, Tx(w, snap));
      }
    }
  }

  lemma ProposalHitIsOld(snap: Db, db: Db, span: Span, u: User)
    requires Since(snap, db)
    ensures ProposalHit(db, u, span, None) ==> ProposalHit(snap, u, span, None)
  {
    if b: nat :| b < |db.bookings| && Involves(db, b, u) && ProposedSlot(db, b).Some?
                 && Overlap(ProposedSlot(db, b).value, span) {
      assert Inherited(snap.bookings[b], db.bookings[b]);
      assert ProposalHit(snap, u, span, None);
    }
  }

  /** If the wish passed on the snapshot and no phantom appeared, the guard would still say yes now. */
  lemma GuardStillFree(snap: Db, db: Db, w: Wish, u: User)
    requires Since(snap, db) && w.tutor < |db.tutors|
    requires Guard(snap, u, Lesson(w.start, w.minutes), None).None?
    requires u == w.user || u == db.tutors[w.tutor].user
    requires !Phantom(db, Tx(w, snap))
    ensures Guard(db, u, Lesson(w.start, w.minutes), None).None?
  {
    BookingHitIsOldOrPhantom(snap, db, w, u);
    ProposalHitIsOld(snap, db, Lesson(w.start, w.minutes), u);
  }

  /** An inserting commit is the atomic `create` of BookingRuns, done at that moment. */
  lemma CommitIsCreate(snap: Db, db: Db, w: Wish)
    requires Since(snap, db) && Step(snap, AsEvent(w)).Ok?
    requires w.tutor < |db.tutors| && !Phantom(db, Tx(w, snap))
    ensures Step(db, AsEvent(w))
            == Ok(db.(bookings := db.bookings + [NewBooking(db, w.user, w.tutor, w.start, w.minutes, w.seats)]))
  {
    assert db.tutors[w.tutor] == snap.tutors[w.tutor].(defectCount := db.tutors[w.tutor].defectCount);
    GuardStillFree(snap, db, w, w.user);
    GuardStillFree(snap, db, w, db.tutors[w.tutor].user);
  }

  /** Every open transaction passed its checks on a snapshot that the present inherits from. */
  ghost predicate SystemInv(s: System) {
    && Inv(s.db)
    && (forall id :: id in s.open ==>
          Since(s.open[id].snapshot, s.db) && Step(s.open[id].snapshot, AsEvent(s.open[id].wish)).Ok?)
  }

  lemma InsertedSince(db: Db, db': Db)
    requires Inv(db) && Inv(db') && |db'.bookings| == |db.bookings| + 1
    requires db' == db.(bookings := db'.bookings) && db'.bookings == db.bookings + [db'.bookings[|db.bookings|]]
    requires db'.bookings[|db.bookings|].request.None?
    ensures Since(db, db')
  {
  }

  lemma CarryTransactions(s: System, s': System)
    requires SystemInv(s) && Inv(s'.db) && Since(s.db, s'.db)
    requires forall id :: id in s'.open ==> id in s.open && s'.open[id] == s.open[id]
    ensures SystemInv(s')
  {
    forall id | id in s'.open ensures Since(s'.open[id].snapshot, s'.db) {
      SinceTwice(s'.open[id].snapshot, s.db, s'.db);
    }
  }

  /** Each move of the concurrent system is one atomic step of the booking core, or none. */
  lemma MoveIsSerial(s: System, m: Move, s': System) returns (e: Option<Event>)
    requires SystemInv(s) && SystemMoves(s, m, s')
    ensures SystemInv(s')
    ensures if e.None? then s'.db == s.db else Moves(s.db, e.value, s'.db)
  {
    e := None;
    match m
    case Begin(id, w) =>
      if Step(s.db, AsEvent(w)).Ok? { SinceNow(s.db); }
    case Commit(id, spurious) =>
      var tx := s.open[id];
      if s'.db != s.db {
        CommitIsCreate(tx.snapshot, s.db, tx.wish);
        e := Some(AsEvent(tx.wish));
        StepKeeps(s.db, AsEvent(tx.wish));
        InsertedSince(s.db, s'.db);
        CarryTransactions(s, s');
      }
    case Other(event) =>
      e := Some(event);
      if Step(s.db, event).Ok? {
        StepKeeps(s.db, event);
        InterleavedStepSince(s.db, event);
        CarryTransactions(s, s');
      }
  }

  /** However any number of creates interleave, with each other and with the other steps, nobody is
      ever double-booked and no other invariant of the core breaks. */
  lemma InterleavedCreatesAreSafe(ss: seq<System>, ms: seq<Move>, k: nat)
    requires IsSystemRun(ss, ms) && SystemInv(ss[0]) && k <= |ms|
    ensures SystemInv(ss[k])
  {
    assert Preserved(SystemMoves, SystemInv) by {
      forall s, m, s' | SystemInv(s) && SystemMoves(s, m, s') ensures SystemInv(s') { var e := MoveIsSerial(s, m, s'); }
    }
    HoldsAlong(SystemMoves, SystemInv, ss, ms, 0, k);
  }

  /** The abort is needed: any two students whose wishes for one tutor's hour both pass on the same
      database are a double booking if both rows are inserted. */
  lemma WithoutAbortDoubleBooks(db: Db, w: Wish, rival: Wish)
    requires Inv(db) && Step(db, AsEvent(w)).Ok? && Step(db, AsEvent(rival)).Ok?
    requires rival.tutor == w.tutor && rival.start == w.start
    ensures var both := db.(bookings := db.bookings
                            + [NewBooking(db, w.user, w.tutor, w.start, w.minutes, w.seats)]
                            + [NewBooking(db, rival.user, rival.tutor, rival.start, rival.minutes, rival.seats)]);
            Refs(both) && !NoDoubleBooking(both)
  {
    var n := |db.bookings|;
    var both := db.(bookings := db.bookings
                    + [NewBooking(db, w.user, w.tutor, w.start, w.minutes, w.seats)]
                    + [NewBooking(db, rival.user, rival.tutor, rival.start, rival.minutes, rival.seats)]);
    forall b | 0 <= b < |both.bookings| ensures BookingRefs(both, both.bookings[b]) {
      if b < n { assert BookingRefs(db, db.bookings[b]); }
    }
    assert Reserves(both, n, Lesson(w.start, w.minutes)) && Reserves(both, n + 1, Lesson(rival.start, rival.minutes));
    assert Involves(both, n, db.tutors[w.tutor].user) && Involves(both, n + 1, db.tutors[w.tutor].user);
  }
}
