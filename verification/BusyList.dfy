/** The list the slot picker greys out, against the guard that decides on submit. */
module BusyList {
  import opened Basics
  import opened WeeklyRules
  import opened Bookings
  import opened BookingInvariants

  /** What one booking row adds to the list. */
  function BookingBusy(db: Db, b: nat, u: User, window: Span): seq<Span>
    requires b < |db.bookings| && BookingRefs(db, db.bookings[b])
  {
    var k := db.bookings[b];
    if !Involves(db, b, u) || !Active(k.status) || k.start >= window.hi then []
    else
      (if OwnSlot(k).hi > window.lo then [OwnSlot(k)] else [])
      + (if ProposedSlot(db, b).Some? && Overlap(ProposedSlot(db, b).value, window)
         then [ProposedSlot(db, b).value] else [])
  }

  function Flatten(rows: seq<seq<Span>>): seq<Span> {
    if rows == [] then [] else Flatten(rows[..|rows| - 1]) + rows[|rows| - 1]
  }

  /** What the first `n` booking rows add, in table order. */
  function BookingsBusy(db: Db, u: User, window: Span, n: nat): seq<Span>
    requires Refs(db) && n <= |db.bookings|
  {
    Flatten(seq(n, b requires 0 <= b < n => BookingBusy(db, b, u, window)))
  }

  lemma BookingsBusyNext(db: Db, u: User, window: Span, n: nat)
    requires Refs(db) && n < |db.bookings|
    ensures BookingsBusy(db, u, window, n + 1) == BookingsBusy(db, u, window, n) + BookingBusy(db, n, u, window)
  {
    var rows := seq(n + 1, b requires 0 <= b < n + 1 => BookingBusy(db, b, u, window));
    assert rows[..n] == seq(n, b requires 0 <= b < n => BookingBusy(db, b, u, window));
  }

  /** Some listed span meets the candidate. */
  ghost predicate Meets(busy: seq<Span>, candidate: Span) {
    exists x :: x in busy && Overlap(x, candidate)
  }

  /** The rows a window lists for its user: counted by the guard and begun before the window ends. */
  predicate Listed(db: Db, b: nat, u: User, window: Span)
    requires b < |db.bookings| && BookingRefs(db, db.bookings[b])
  {
    Involves(db, b, u) && Active(db.bookings[b].status) && db.bookings[b].start < window.hi
  }

  /** A proposal the picker cannot see: the row it hangs on is not listed. */
  ghost predicate HiddenProposalHit(db: Db, u: User, window: Span, candidate: Span)
    requires Refs(db)
  {
    exists b :: 0 <= b < |db.bookings| && Involves(db, b, u) && !Listed(db, b, u, window)
                && ProposedSlot(db, b).Some? && Overlap(ProposedSlot(db, b).value, candidate)
  }

  /** The row is listed, and its own slot or its proposal meets the candidate. */
  predicate RowHit(db: Db, b: nat, u: User, window: Span, candidate: Span)
    requires b < |db.bookings| && BookingRefs(db, db.bookings[b])
  {
    && Listed(db, b, u, window)
    && (Overlap(OwnSlot(db.bookings[b]), candidate)
        || (ProposedSlot(db, b).Some? && Overlap(ProposedSlot(db, b).value, candidate)))
  }

  lemma {:induction false} FlattenMeets(rows: seq<seq<Span>>, candidate: Span)
    ensures Meets(Flatten(rows), candidate) <==> exists k :: 0 <= k < |rows| && Meets(rows[k], candidate)
  {
    if rows != [] {
      var front := rows[..|rows| - 1];
      FlattenMeets(front, candidate);
      assert forall k :: 0 <= k < |front| ==> front[k] == rows[k];
    }
  }

  lemma BookingsBusyMeets(db: Db, u: User, window: Span, candidate: Span)
    requires Refs(db)
    requires window.lo <= candidate.lo < candidate.hi <= window.hi
    ensures Meets(BookingsBusy(db, u, window, |db.bookings|), candidate)
            <==> exists b :: 0 <= b < |db.bookings| && RowHit(db, b, u, window, candidate)
  {
    var n := |db.bookings|;
    var rows := seq(n, b requires 0 <= b < n => BookingBusy(db, b, u, window));
    FlattenMeets(rows, candidate);
    forall b | 0 <= b < n ensures Meets(rows[b], candidate) <==> RowHit(db, b, u, window, candidate) {}
  }

  lemma {:induction false} FlattenHas(rows: seq<seq<Span>>, x: Span)
    ensures x in Flatten(rows) <==> exists k :: 0 <= k < |rows| && x in rows[k]
  {
    if rows != [] {
      var front := rows[..|rows| - 1];
      FlattenHas(front, x);
      assert forall k :: 0 <= k < |front| ==> front[k] == rows[k];
    }
  }

  /** Listed are exactly the own times and the open proposals of the user's rows that meet the window. */
  lemma ListedExactly(db: Db, u: User, window: Span, x: Span)
    requires Refs(db)
    ensures x in BookingsBusy(db, u, window, |db.bookings|)
            <==> Overlap(x, window) && exists b :: 0 <= b < |db.bookings| && Listed(db, b, u, window)
                                                    && (x == OwnSlot(db.bookings[b]) || ProposedSlot(db, b) == Some(x))
  {
    var n := |db.bookings|;
    var rows := seq(n, b requires 0 <= b < n => BookingBusy(db, b, u, window));
    FlattenHas(rows, x);
    forall b | 0 <= b < n
      ensures x in rows[b] <==> Overlap(x, window) && Listed(db, b, u, window)
                                && (x == OwnSlot(db.bookings[b]) || ProposedSlot(db, b) == Some(x))
    {}
  }

  // ---- weekly rules of the user's own profile ------------------------------------------------------------

  /** The user's tutor profile, unique if there is one. */
  ghost function ProfileOf(db: Db, u: User): Option<nat> {
    if exists t :: 0 <= t < |db.tutors| && db.tutors[t].user == u
    then var t :| 0 <= t < |db.tutors| && db.tutors[t].user == u; Some(t)
    else None
  }

  ghost function RulesBusy(db: Db, u: User, window: Span): seq<Span>
    requires ProfilesOk(db.tutors)
  {
    if ProfileOf(db, u).None? then []
    else
      var rules := db.tutors[ProfileOf(db, u).value].rules;
      ExpansionExact(db.zone, rules, window);
      Blocks(db.zone, rules, Hits(db.zone, rules, window))
  }

  /** The whole list. */
  ghost function Busy(db: Db, u: User, window: Span): seq<Span>
    requires Refs(db) && ProfilesOk(db.tutors)
  {
    BookingsBusy(db, u, window, |db.bookings|) + RulesBusy(db, u, window)
  }

  lemma RulesBusyMeets(db: Db, u: User, window: Span, candidate: Span)
    requires ProfilesOk(db.tutors) && window.lo <= candidate.lo && candidate.hi <= window.hi
    ensures Meets(RulesBusy(db, u, window), candidate) <==> RuleHit(db, u, candidate)
  {
    if ProfileOf(db, u).Some? {
      var t := ProfileOf(db, u).value;
      ExpansionAnswersBlocked(db.zone, db.tutors[t].rules, window, candidate);
      var busy := RulesBusy(db, u, window);
      assert Meets(busy, candidate) <==> exists x :: x in busy && Overlap(candidate, x) by {
        if Meets(busy, candidate) {
          var x :| x in busy && Overlap(x, candidate);
          assert Overlap(candidate, x);
        }
        if x :| x in busy && Overlap(candidate, x) {
          assert Overlap(x, candidate);
        }
      }
    }
  }

  /** For a candidate inside the window, the guard refuses exactly when the candidate meets the list
      or a proposal that the list does not show. */
  lemma GuardAndBusyListAgree(db: Db, u: User, window: Span, candidate: Span)
    requires Refs(db) && ProfilesOk(db.tutors)
    requires window.lo <= candidate.lo < candidate.hi <= window.hi
    ensures Guard(db, u, candidate, None).Some?
            <==> Meets(Busy(db, u, window), candidate) || HiddenProposalHit(db, u, window, candidate)
  {
    var rows, blocks := BookingsBusy(db, u, window, |db.bookings|), RulesBusy(db, u, window);
    BookingsBusyMeets(db, u, window, candidate);
    RulesBusyMeets(db, u, window, candidate);
    if b :| 0 <= b < |db.bookings| && Involves(db, b, u) && Active(db.bookings[b].status)
            && Overlap(OwnSlot(db.bookings[b]), candidate) {
      assert RowHit(db, b, u, window, candidate);
    }
    if b :| 0 <= b < |db.bookings| && Involves(db, b, u) && ProposedSlot(db, b).Some?
            && Overlap(ProposedSlot(db, b).value, candidate) {
      assert RowHit(db, b, u, window, candidate) || HiddenProposalHit(db, u, window, candidate);
    }
  }
}
