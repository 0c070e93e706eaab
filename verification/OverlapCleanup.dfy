/** The one-off script that resolves bookings which already overlap: it scans for conflicting pairs
    once, then walks the pairs in whatever order the database returned them. */
module OverlapCleanup {
  import opened Basics
  import opened Bookings
  import opened BookingInvariants

  /** A booking row with its payment; rows are listed in id order. `createdAt` need not follow it. */
  datatype Entry = Entry(student: User, tutor: nat, start: int, minutes: int, createdAt: int,
                         status: BookingStatus, intent: Option<Intent>)

  datatype Pair = Pair(keep: nat, cancel: nat)

  datatype Action = Resolved(refunded: int) | AlreadyResolved | NoPaymentIntent

  function SlotOf(e: Entry): Span {
    Lesson(e.start, e.minutes)
  }

  /** The scan's join condition. */
  predicate Conflict(es: seq<Entry>, a: nat, b: nat) {
    && a < |es| && b < |es| && a != b
    && Active(es[a].status) && Active(es[b].status)
    && (es[a].student == es[b].student || es[a].tutor == es[b].tutor)
    && Overlap(SlotOf(es[a]), SlotOf(es[b]))
  }

  /** The earlier-created of the two is kept; on a tie, the smaller id. */
  function PairOf(es: seq<Entry>, a: nat, b: nat): Pair
    requires a < b < |es|
  {
    if es[a].createdAt <= es[b].createdAt then Pair(a, b) else Pair(b, a)
  }

  /** The pairs are the scan's rows, in any order. */
  ghost predicate IsScan(es: seq<Entry>, pairs: seq<Pair>) {
    && (forall a: nat, b: nat :: a < b && Conflict(es, a, b) ==> PairOf(es, a, b) in pairs)
    && (forall p :: p in pairs ==> exists a: nat, b: nat :: a < b && Conflict(es, a, b) && p == PairOf(es, a, b))
  }

  // ---- what the result should be, with no pairs in sight ------------------------------------------------

  /** Creation order, ids breaking ties. */
  predicate Precedes(es: seq<Entry>, y: nat, x: nat)
    requires y < |es| && x < |es|
  {
    es[y].createdAt < es[x].createdAt || (es[y].createdAt == es[x].createdAt && y < x)
  }

  /** A booking loses its place if some earlier booking conflicts with it, even one that loses too. */
  predicate Doomed(es: seq<Entry>, x: nat)
    requires x < |es|
  {
    exists y :: 0 <= y < |es| && Conflict(es, y, x) && Precedes(es, y, x)
  }

  function CancelledEntry(e: Entry): Entry {
    e.(status := CancelledNoAgreement,
       intent := if e.intent.Some? then Some(e.intent.value.(amount := 0, status := IntentStatus.Refunded)) else None)
  }

  function AmountOf(e: Entry): nat {
    if e.intent.Some? then e.intent.value.amount else 0
  }

  function RefundRows(es: seq<Entry>, x: nat): multiset<LedgerRow>
    requires x < |es|
  {
    if es[x].intent.None? then multiset{}
    else multiset{LedgerRow(x, x, es[x].intent.value.amount, es[x].intent.value.amount, 0, 0, AdminManual)}
  }

  /** The refunds of the bookings in `gone`, one each, among the first `n`. */
  function RefundsOf(es: seq<Entry>, gone: set<nat>, n: nat): multiset<LedgerRow>
    requires n <= |es|
  {
    if n == 0 then multiset{}
    else RefundsOf(es, gone, n - 1) + (if n - 1 in gone then RefundRows(es, n - 1) else multiset{})
  }

  ghost function DoomedSet(es: seq<Entry>): set<nat> {
    set x: nat | 0 <= x < |es| && Doomed(es, x)
  }

  /** Counted row by row: each booking in `gone` that has a payment has exactly one refund, of all of it. */
  lemma {:induction false} RefundOnce(es: seq<Entry>, gone: set<nat>, n: nat, row: LedgerRow)
    requires n <= |es|
    ensures RefundsOf(es, gone, n)[row]
            == if row.booking < n && row.booking in gone && es[row.booking].intent.Some?
                  && row == LedgerRow(row.booking, row.booking, AmountOf(es[row.booking]), AmountOf(es[row.booking]),
                                      0, 0, AdminManual)
               then 1 else 0
  {
    if n > 0 {
      RefundOnce(es, gone, n - 1, row);
    }
  }

  lemma OneMoreGone(es: seq<Entry>, gone: set<nat>, x: nat, n: nat)
    requires x < n <= |es| && x !in gone
    ensures RefundsOf(es, gone + {x}, n) == RefundsOf(es, gone, n) + RefundRows(es, x)
  {
    forall row: LedgerRow
      ensures RefundsOf(es, gone + {x}, n)[row] == (RefundsOf(es, gone, n) + RefundRows(es, x))[row]
    {
      RefundOnce(es, gone, n, row);
      RefundOnce(es, gone + {x}, n, row);
    }
  }

  lemma {:induction false} NoneGone(es: seq<Entry>, n: nat)
    requires n <= |es|
    ensures RefundsOf(es, {}, n) == multiset{}
  {
    if n > 0 {
      NoneGone(es, n - 1);
    }
  }

  /** The bookings on the cancel side of the first `k` pairs. */
  function Gone(pairs: seq<Pair>, k: nat): set<nat>
    requires k <= |pairs|
  {
    if k == 0 then {} else Gone(pairs, k - 1) + {pairs[k - 1].cancel}
  }

  lemma {:induction false} GoneHas(pairs: seq<Pair>, k: nat, x: nat)
    requires k <= |pairs|
    ensures x in Gone(pairs, k) <==> exists j :: 0 <= j < k && pairs[j].cancel == x
  {
    if k > 0 {
      GoneHas(pairs, k - 1, x);
    }
  }

  lemma PairDooms(es: seq<Entry>, pairs: seq<Pair>, j: nat)
    requires IsScan(es, pairs) && j < |pairs|
    ensures pairs[j].cancel < |es| && Doomed(es, pairs[j].cancel) && Active(es[pairs[j].cancel].status)
  {
    var p := pairs[j];
    assert p in pairs;
    var a: nat, b: nat :| a < b && Conflict(es, a, b) && p == PairOf(es, a, b);
    assert Conflict(es, p.keep, p.cancel) && Precedes(es, p.keep, p.cancel);
  }

  /** In whatever order the pairs come, the bookings they cancel are the doomed ones. */
  lemma ScanFindsTheDoomed(es: seq<Entry>, pairs: seq<Pair>)
    requires IsScan(es, pairs)
    ensures Gone(pairs, |pairs|) == DoomedSet(es)
  {
    forall x: nat ensures x in Gone(pairs, |pairs|) <==> x in DoomedSet(es) {
      GoneHas(pairs, |pairs|, x);
      if j :| 0 <= j < |pairs| && pairs[j].cancel == x {
        PairDooms(es, pairs, j);
      }
      if x in DoomedSet(es) {
        var y: nat :| y < |es| && Conflict(es, y, x) && Precedes(es, y, x);
        var a, b := if y < x then y else x, if y < x then x else y;
        assert Conflict(es, a, b);
        var j :| 0 <= j < |pairs| && pairs[j] == PairOf(es, a, b);
      }
    }
  }

  /** The table with the bookings of `gone` cancelled. */
  function Without(es: seq<Entry>, gone: set<nat>): (out: seq<Entry>)
    ensures |out| == |es|
  {
    seq(|es|, x requires 0 <= x < |es| => if x in gone then CancelledEntry(es[x]) else es[x])
  }

  /** One pair's effect on a table that has come this far. */
  lemma PairEffect(es: seq<Entry>, gone: set<nat>, x: nat)
    requires x < |es| && Active(es[x].status)
    ensures Active(Without(es, gone)[x].status) <==> x !in gone
    ensures x in gone ==> Without(es, gone + {x}) == Without(es, gone) && gone + {x} == gone
    ensures x !in gone ==>
              && Without(es, gone)[x] == es[x]
              && Without(es, gone + {x}) == Without(es, gone)[x := CancelledEntry(Without(es, gone)[x])]
              && RefundRows(Without(es, gone), x) == RefundRows(es, x)
              && RefundsOf(es, gone + {x}, |es|) == RefundsOf(es, gone, |es|) + RefundRows(es, x)
  {
    if x in gone {
      assert gone + {x} == gone;
    } else {
      OneMoreGone(es, gone, x, |es|);
    }
  }

  function FirstReport(e: Entry): Action {
    if e.intent.None? then NoPaymentIntent else Resolved(e.intent.value.amount)
  }

  /** What is reported for the pair: a live run reports a booking's refund once; a dry run, which
      writes nothing, repeats it for every pair the booking loses. */
  function PairReport(es: seq<Entry>, pairs: seq<Pair>, k: nat, dryRun: bool): Action
    requires k < |pairs|
  {
    if pairs[k].cancel >= |es| || (!dryRun && pairs[k].cancel in Gone(pairs, k)) then AlreadyResolved
    else FirstReport(es[pairs[k].cancel])
  }

  /** Where the loop stands after `k` pairs of the scan of table `es`. */
  ghost predicate SoFar(es: seq<Entry>, base: multiset<LedgerRow>, pairs: seq<Pair>, k: nat, dryRun: bool,
                        entries: seq<Entry>, ledger: seq<LedgerRow>, actions: seq<Action>)
    requires k <= |pairs|
  {
    var gone := if dryRun then {} else Gone(pairs, k);
    && entries == Without(es, gone)
    && multiset(ledger) == base + RefundsOf(es, gone, |es|)
    && |actions| == k
    && forall j :: 0 <= j < k ==> actions[j] == PairReport(es, pairs, j, dryRun)
  }

  lemma NothingYet(es: seq<Entry>, pairs: seq<Pair>, dryRun: bool, ledger: seq<LedgerRow>)
    ensures SoFar(es, multiset(ledger), pairs, 0, dryRun, es, ledger, [])
  {
    NoneGone(es, |es|);
    assert Without(es, {}) == es;
  }

  lemma DryNext(es: seq<Entry>, base: multiset<LedgerRow>, pairs: seq<Pair>, k: nat,
                entries: seq<Entry>, ledger: seq<LedgerRow>, actions: seq<Action>, action: Action)
    requires k < |pairs| && pairs[k].cancel < |es| && Active(es[pairs[k].cancel].status)
    requires SoFar(es, base, pairs, k, true, entries, ledger, actions)
    requires action == FirstReport(entries[pairs[k].cancel])
    ensures SoFar(es, base, pairs, k + 1, true, entries, ledger, actions + [action])
  {
  }

  lemma LiveNext(es: seq<Entry>, base: multiset<LedgerRow>, pairs: seq<Pair>, k: nat,
                 entries: seq<Entry>, ledger: seq<LedgerRow>, actions: seq<Action>,
                 entries': seq<Entry>, ledger': seq<LedgerRow>, action: Action)
    requires k < |pairs| && pairs[k].cancel < |es| && Active(es[pairs[k].cancel].status)
    requires SoFar(es, base, pairs, k, false, entries, ledger, actions)
    requires var x := pairs[k].cancel;
             if Active(entries[x].status)
             then && entries' == entries[x := CancelledEntry(entries[x])] && action == FirstReport(entries[x])
                  && multiset(ledger') == multiset(ledger) + RefundRows(entries, x)
             else entries' == entries && ledger' == ledger && action == AlreadyResolved
    ensures SoFar(es, base, pairs, k + 1, false, entries', ledger', actions + [action])
  {
    var x, gone := pairs[k].cancel, Gone(pairs, k);
    PairEffect(es, gone, x);
    assert Gone(pairs, k + 1) == gone + {x};
  }

  lemma AllDone(es: seq<Entry>, base: multiset<LedgerRow>, pairs: seq<Pair>, dryRun: bool,
                entries: seq<Entry>, ledger: seq<LedgerRow>, actions: seq<Action>)
    requires IsScan(es, pairs) && SoFar(es, base, pairs, |pairs|, dryRun, entries, ledger, actions)
    ensures !dryRun ==> entries == Without(es, DoomedSet(es))
    ensures !dryRun ==> multiset(ledger) == base + RefundsOf(es, DoomedSet(es), |es|)
  {
    ScanFindsTheDoomed(es, pairs);
  }

  // ---- the script -------------------------------------------------------------------------------------------

  ghost function Cleaned(es: seq<Entry>): (out: seq<Entry>)
    ensures |out| == |es|
  {
    Without(es, DoomedSet(es))
  }

  class Script {
    var entries: seq<Entry>
    var ledger: seq<LedgerRow>

    constructor (entries: seq<Entry>, ledger: seq<LedgerRow>)
      ensures this.entries == entries && this.ledger == ledger
    {
      this.entries, this.ledger := entries, ledger;
    }

    /** One pair: cancel the later booking unless an earlier pair has done so. */
    method ApplyResolution(pair: Pair, dryRun: bool) returns (action: Action)
      requires pair.cancel < |entries|
      modifies this
      ensures dryRun || !Active(old(entries)[pair.cancel].status) ==> entries == old(entries) && ledger == old(ledger)
      ensures !dryRun && Active(old(entries)[pair.cancel].status) ==>
                && entries == old(entries)[pair.cancel := CancelledEntry(old(entries)[pair.cancel])]
                && multiset(ledger) == multiset(old(ledger)) + RefundRows(old(entries), pair.cancel)
      ensures action == (if !Active(old(entries)[pair.cancel].status) then AlreadyResolved
                         else FirstReport(old(entries)[pair.cancel]))
    {
      var e := entries[pair.cancel];
      if !Active(e.status) { return AlreadyResolved; }
      if e.intent.None? {
        if !dryRun {
          entries := entries[pair.cancel := e.(status := CancelledNoAgreement)];
        }
        return NoPaymentIntent;
      }
      var amount := e.intent.value.amount;
      if !dryRun {
        e := e.(intent := Some(e.intent.value.(amount := 0, status := IntentStatus.Refunded)));
        ledger := ledger + [LedgerRow(pair.cancel, pair.cancel, amount, amount, 0, 0, AdminManual)];
        entries := entries[pair.cancel := e.(status := CancelledNoAgreement)];
      }
      return Resolved(amount);
    }

    /** The same, as one turn of the loop. */
    method ApplyNext(ghost es: seq<Entry>, ghost base: multiset<LedgerRow>, pairs: seq<Pair>, k: nat, dryRun: bool,
                     actions: seq<Action>) returns (actions': seq<Action>)
      requires IsScan(es, pairs) && k < |pairs|
      requires SoFar(es, base, pairs, k, dryRun, entries, ledger, actions)
      modifies this
      ensures SoFar(es, base, pairs, k + 1, dryRun, entries, ledger, actions')
      ensures dryRun ==> entries == old(entries) && ledger == old(ledger)
    {
      PairDooms(es, pairs, k);
      ghost var before, rows := entries, ledger;
      var action := ApplyResolution(pairs[k], dryRun);
      actions' := actions + [action];
      if dryRun {
        DryNext(es, base, pairs, k, entries, ledger, actions, action);
      } else {
        LiveNext(es, base, pairs, k, before, rows, actions, entries, ledger, action);
      }
    }

    /** The loop over the pairs. Whatever their order, exactly the doomed bookings are cancelled, each
        payment among them is refunded by one row, and everything else stays as it was. */
    method ResolveAll(pairs: seq<Pair>, dryRun: bool) returns (actions: seq<Action>)
      requires IsScan(entries, pairs)
      modifies this
      ensures dryRun ==> entries == old(entries) && ledger == old(ledger)
      ensures !dryRun ==> entries == Cleaned(old(entries))
      ensures !dryRun ==>
                multiset(ledger) == multiset(old(ledger))
                                    + RefundsOf(old(entries), DoomedSet(old(entries)), |old(entries)|)
      ensures |actions| == |pairs|
      ensures forall k :: 0 <= k < |pairs| ==> actions[k] == PairReport(old(entries), pairs, k, dryRun)
    {
      actions := [];
      ghost var es, base := entries, multiset(ledger);
      NothingYet(es, pairs, dryRun, ledger);
      for k := 0 to |pairs|
        invariant SoFar(es, base, pairs, k, dryRun, entries, ledger, actions)
        invariant dryRun ==> entries == es && ledger == old(ledger)
      {
        actions := ApplyNext(es, base, pairs, k, dryRun, actions);
      }
      AllDone(es, base, pairs, dryRun, entries, ledger, actions);
    }
  }

  /** The cleaned table has no conflict left, and whoever lost a place lost it to an earlier booking. */
  lemma CleanedHasNoConflict(es: seq<Entry>, a: nat, b: nat)
    requires a < |es| && b < |es|
    ensures !Conflict(Cleaned(es), a, b)
    ensures Active(Cleaned(es)[a].status) <==> Active(es[a].status) && !Doomed(es, a)
  {
    if Conflict(Cleaned(es), a, b) {
      assert !Doomed(es, a) && !Doomed(es, b);
      assert Conflict(es, a, b) && Conflict(es, b, a);
    }
  }

  /** The scan does not know about postponed originals: a class that was moved to a time overlapping
      its old one is cancelled and refunded by the script. */
  lemma MovedClassIsCancelled(es: seq<Entry>, original: nat, clone: nat)
    requires original < |es| && clone < |es| && Precedes(es, original, clone)
    requires es[original].status == Postponed && es[clone].status == Paid
    requires es[original].student == es[clone].student && es[original].tutor == es[clone].tutor
    requires Overlap(SlotOf(es[original]), SlotOf(es[clone]))
    ensures Cleaned(es)[clone] == CancelledEntry(es[clone])
  {
    assert Conflict(es, original, clone);
  }

  // ---- the same, said of people and clocks --------------------------------------------------------------

  predicate InUse(e: Entry) {
    e.status in {Requested, Accepted, Paid, PostponePending, Postponed}
  }

  /** The class runs at instant `t`. */
  predicate RunsAt(e: Entry, t: int) {
    e.start <= t < e.start + e.minutes * 60_000
  }

  /** Booking `y` was there first, and takes the student's or the tutor's time of booking `x`. */
  predicate InTheWay(es: seq<Entry>, y: nat, x: nat)
    requires y < |es| && x < |es|
  {
    && y != x && InUse(es[y])
    && (es[y].student == es[x].student || es[y].tutor == es[x].tutor)
    && (es[y].createdAt < es[x].createdAt || (es[y].createdAt == es[x].createdAt && y < x))
    && es[y].start < es[x].start + es[x].minutes * 60_000 && es[x].start < es[y].start + es[y].minutes * 60_000
  }

  /** After the script, no student and no tutor is in two classes at any instant. */
  lemma NobodyInTwoClasses(es: seq<Entry>, a: nat, b: nat, t: int)
    requires a < |es| && b < |es| && a != b && InUse(Cleaned(es)[a]) && InUse(Cleaned(es)[b])
    requires es[a].student == es[b].student || es[a].tutor == es[b].tutor
    ensures !(RunsAt(es[a], t) && RunsAt(es[b], t))
  {
    CleanedHasNoConflict(es, a, b);
    assert !Doomed(es, a) && !Doomed(es, b);
  }

  /** A booking in use is left as it was if and only if no earlier one was in its way, even one that goes too;
      otherwise it is cancelled and its payment emptied. Bookings not in use are left alone. */
  lemma FateOf(es: seq<Entry>, x: nat)
    requires x < |es|
    ensures var gone := InUse(es[x]) && exists y :: 0 <= y < |es| && InTheWay(es, y, x);
            if !gone then Cleaned(es)[x] == es[x]
            else && Cleaned(es)[x].status == CancelledNoAgreement
                 && Cleaned(es)[x].intent.Some? == es[x].intent.Some?
                 && (es[x].intent.Some? ==>
                       Cleaned(es)[x].intent == Some(es[x].intent.value.(amount := 0, status := IntentStatus.Refunded)))
  {
    forall y | 0 <= y < |es|
      ensures InUse(es[x]) && InTheWay(es, y, x) <==> Conflict(es, y, x) && Precedes(es, y, x)
    {}
    assert Doomed(es, x) <==> InUse(es[x]) && exists y :: 0 <= y < |es| && InTheWay(es, y, x);
  }

  // ---- what the rows refund ------------------------------------------------------------------------------

  /** Money of the booking that is really in escrow. */
  function EscrowOf(e: Entry): nat {
    if e.intent.Some? && InEscrow(e.intent.value.status) then e.intent.value.amount else 0
  }

  /** A price is on the intent, but nothing in escrow. */
  predicate Unpaid(e: Entry) {
    AmountOf(e) > 0 && EscrowOf(e) == 0
  }

  /** The script's row of a booking gives back more than was in escrow exactly if the booking is unpaid, and
      then it gives back the price in full. */
  lemma RowExceedsEscrowIff(es: seq<Entry>, x: nat, row: LedgerRow)
    requires x < |es| && RefundRows(es, x) == multiset{row}
    ensures row.original == row.student == AmountOf(es[x]) && row.tutor == row.platform == 0
    ensures row.booking == x && row.reason == AdminManual
    ensures row.student > EscrowOf(es[x]) <==> Unpaid(es[x])
  {
    assert row in RefundRows(es, x);
  }

  function Refunded(es: seq<Entry>, gone: set<nat>, n: nat): nat
    requires n <= |es|
  {
    if n == 0 then 0 else Refunded(es, gone, n - 1) + (if n - 1 in gone then AmountOf(es[n - 1]) else 0)
  }

  lemma {:induction false} RefundedWith(es: seq<Entry>, gone: set<nat>, x: nat, n: nat)
    requires n <= |es| && x !in gone
    ensures Refunded(es, gone + {x}, n) == Refunded(es, gone, n) + if x < n then AmountOf(es[x]) else 0
  {
    if n > 0 {
      RefundedWith(es, gone, x, n - 1);
    }
  }

  /** What the reports on the first `k` pairs say was given back. */
  function Reported(es: seq<Entry>, pairs: seq<Pair>, k: nat, dryRun: bool): int
    requires k <= |pairs|
  {
    if k == 0 then 0
    else
      var report := PairReport(es, pairs, k - 1, dryRun);
      Reported(es, pairs, k - 1, dryRun) + if report.Resolved? then report.refunded else 0
  }

  lemma {:induction false} NothingRefunded(es: seq<Entry>, n: nat)
    requires n <= |es|
    ensures Refunded(es, {}, n) == 0
  {
    if n > 0 {
      NothingRefunded(es, n - 1);
    }
  }

  /** A live run reports every baht that it refunds, and none twice. */
  lemma {:induction false} ReportsAddUp(es: seq<Entry>, pairs: seq<Pair>, k: nat)
    requires IsScan(es, pairs) && k <= |pairs|
    ensures Reported(es, pairs, k, false) == Refunded(es, Gone(pairs, k), |es|)
  {
    if k > 0 {
      ReportsAddUp(es, pairs, k - 1);
      PairDooms(es, pairs, k - 1);
      var x, gone := pairs[k - 1].cancel, Gone(pairs, k - 1);
      if x in gone {
        assert gone + {x} == gone;
      } else {
        RefundedWith(es, gone, x, |es|);
      }
    } else {
      NothingRefunded(es, |es|);
    }
  }

  /** What a pair's report says: nothing to do if, in a live run, an earlier pair has cancelled the booking;
      otherwise its payment in full, or that there is none. */
  lemma ReportMeans(es: seq<Entry>, pairs: seq<Pair>, k: nat, dryRun: bool)
    requires IsScan(es, pairs) && k < |pairs|
    ensures pairs[k].cancel < |es|
    ensures PairReport(es, pairs, k, dryRun) == AlreadyResolved
            <==> !dryRun && exists j :: 0 <= j < k && pairs[j].cancel == pairs[k].cancel
    ensures PairReport(es, pairs, k, dryRun) == NoPaymentIntent ==> es[pairs[k].cancel].intent.None?
    ensures PairReport(es, pairs, k, dryRun).Resolved? ==>
              es[pairs[k].cancel].intent.Some?
              && PairReport(es, pairs, k, dryRun).refunded == es[pairs[k].cancel].intent.value.amount
  {
    PairDooms(es, pairs, k);
    GoneHas(pairs, k, pairs[k].cancel);
  }

  function InEscrowBefore(es: seq<Entry>, gone: set<nat>, n: nat): nat
    requires n <= |es|
  {
    if n == 0 then 0 else InEscrowBefore(es, gone, n - 1) + (if n - 1 in gone then EscrowOf(es[n - 1]) else 0)
  }

  /** In total the script refunds at least what the cancelled bookings had in escrow, and exactly that if and only
      if none of them is unpaid. */
  lemma {:induction false} RefundsMatchEscrowIff(es: seq<Entry>, gone: set<nat>, n: nat)
    requires n <= |es|
    ensures Refunded(es, gone, n) >= InEscrowBefore(es, gone, n)
    ensures Refunded(es, gone, n) == InEscrowBefore(es, gone, n)
            <==> forall x :: 0 <= x < n && x in gone ==> !Unpaid(es[x])
  {
    if n > 0 {
      RefundsMatchEscrowIff(es, gone, n - 1);
    }
  }
}
