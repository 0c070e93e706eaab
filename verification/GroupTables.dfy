/** The tables behind the group service: every group with its own rows of the one refund ledger, what
    keeps them in order, and what a failing pass over all groups writes. */
module GroupTables {
  import opened Basics
  import opened Bookings
  import opened GroupSessions

  /** The ledger rows of one booking, in order. */
  function RowsOf(ledger: seq<LedgerRow>, id: nat): seq<LedgerRow> {
    if ledger == [] then []
    else
      var last := ledger[|ledger| - 1];
      RowsOf(ledger[..|ledger| - 1], id) + (if last.booking == id then [last] else [])
  }

  lemma {:induction false} RowsOfTwo(a: seq<LedgerRow>, b: seq<LedgerRow>, id: nat)
    ensures RowsOf(a + b, id) == RowsOf(a, id) + RowsOf(b, id)
  {
    if b == [] {
      assert a + b == a;
    } else {
      RowsOfTwo(a, b[..|b| - 1], id);
      assert (a + b)[..|a + b| - 1] == a + b[..|b| - 1];
    }
  }

  lemma {:induction false} NoRowsOf(ledger: seq<LedgerRow>, id: nat)
    requires forall n :: 0 <= n < |ledger| ==> ledger[n].booking != id
    ensures RowsOf(ledger, id) == []
  {
    if ledger != [] {
      NoRowsOf(ledger[..|ledger| - 1], id);
    }
  }

  /** A group with its own refunds. */
  function RoomAt(groups: seq<Group>, ledger: seq<LedgerRow>, k: nat): Room
    requires k < |groups|
  {
    Room(groups[k], RowsOf(ledger, groups[k].id))
  }

  predicate DistinctIds(groups: seq<Group>) {
    forall j, k :: 0 <= j < k < |groups| ==> groups[j].id != groups[k].id
  }

  predicate IsGroup(groups: seq<Group>, id: nat) {
    exists k :: 0 <= k < |groups| && groups[k].id == id
  }

  /** Every group is a good room, and every ledger row belongs to one. */
  predicate TablesInv(groups: seq<Group>, ledger: seq<LedgerRow>) {
    && DistinctIds(groups)
    && (forall k :: 0 <= k < |groups| ==> RoomInv(RoomAt(groups, ledger, k)))
    && (forall n :: 0 <= n < |ledger| ==> IsGroup(groups, ledger[n].booking))
  }

  /** However long the service has run: a group has at most one row, which gives its host the whole price
      back, and only once it has failed. */
  lemma RefundedAtMostOnce(groups: seq<Group>, ledger: seq<LedgerRow>, k: nat)
    requires TablesInv(groups, ledger) && k < |groups|
    ensures var rows := RowsOf(ledger, groups[k].id);
            |rows| <= 1 && (rows != [] ==> groups[k].phase == Failed && FullRefund(groups[k], rows[0]))
  {
    assert RoomInv(RoomAt(groups, ledger, k));
  }

  // ---- one group's turn --------------------------------------------------------------------------------

  /** Group `k` answers `result`; every other room stays as it was, and no row is ever taken back. */
  predicate Turn(result: RoomResult, refusal: Option<Refusal>, k: nat,
                 groups: seq<Group>, ledger: seq<LedgerRow>, groups': seq<Group>, ledger': seq<LedgerRow>)
    requires k < |groups|
  {
    && |groups'| == |groups| && ledger <= ledger'
    && (match result
        case RoomOk(r) => refusal.None? && RoomAt(groups', ledger', k) == r
        case RoomRefused(why) => refusal == Some(why) && groups' == groups && ledger' == ledger)
    && (forall j :: 0 <= j < |groups| && j != k ==> RoomAt(groups', ledger', j) == RoomAt(groups, ledger, j))
  }

  lemma SameGroups(groups: seq<Group>, groups': seq<Group>, ledger: seq<LedgerRow>)
    requires |groups'| == |groups| && forall k :: 0 <= k < |groups| ==> groups'[k].id == groups[k].id
    requires forall n :: 0 <= n < |ledger| ==> IsGroup(groups, ledger[n].booking)
    ensures forall n :: 0 <= n < |ledger| ==> IsGroup(groups', ledger[n].booking)
  {
    forall n | 0 <= n < |ledger| ensures IsGroup(groups', ledger[n].booking) {
      assert IsGroup(groups, ledger[n].booking);
      var k :| 0 <= k < |groups| && groups[k].id == ledger[n].booking;
      assert groups'[k].id == ledger[n].booking;
    }
  }

  /** A turn that only rewrites the group's own row. */
  lemma RowTurns(groups: seq<Group>, ledger: seq<LedgerRow>, k: nat, g: Group)
    requires TablesInv(groups, ledger) && k < |groups| && g.id == groups[k].id
    requires RoomInv(Room(g, RowsOf(ledger, g.id)))
    ensures Turn(RoomOk(Room(g, RowsOf(ledger, g.id))), None, k, groups, ledger, groups[k := g], ledger)
    ensures TablesInv(groups[k := g], ledger)
  {
    var groups' := groups[k := g];
    forall j | 0 <= j < |groups| ensures RoomInv(RoomAt(groups', ledger, j)) {
      assert RoomInv(RoomAt(groups, ledger, j));
    }
    SameGroups(groups, groups', ledger);
  }

  /** A turn that fails the group. */
  lemma FailureTurns(groups: seq<Group>, ledger: seq<LedgerRow>, k: nat, reason: RefundReason)
    requires TablesInv(groups, ledger) && k < |groups|
    requires groups[k].phase == Forming || groups[k].phase == TutorReview
    ensures var groups', ledger' := groups[k := FailedGroup(groups[k])], ledger + FailureRows(groups[k], reason);
            && Turn(RoomOk(Fail(RoomAt(groups, ledger, k), reason)), None, k, groups, ledger, groups', ledger')
            && TablesInv(groups', ledger')
  {
    var groups', rows := groups[k := FailedGroup(groups[k])], FailureRows(groups[k], reason);
    assert RoomInv(RoomAt(groups, ledger, k));
    FailKeeps(RoomAt(groups, ledger, k), reason);
    forall j | 0 <= j < |groups|
      ensures RoomAt(groups', ledger + rows, j)
              == if j == k then Fail(RoomAt(groups, ledger, k), reason) else RoomAt(groups, ledger, j)
      ensures RoomInv(RoomAt(groups', ledger + rows, j))
    {
      assert RoomInv(RoomAt(groups, ledger, j));
      RowsOfTwo(ledger, rows, groups[j].id);
    }
    forall n | 0 <= n < |ledger + rows| ensures IsGroup(groups, (ledger + rows)[n].booking) {
      if n >= |ledger| { assert groups[k].id == rows[n - |ledger|].booking; }
    }
    SameGroups(groups, groups', ledger + rows);
  }

  /** A new group with a number of its own joins. */
  lemma NewGroupJoins(groups: seq<Group>, ledger: seq<LedgerRow>, g: Group)
    requires TablesInv(groups, ledger) && RoomInv(Room(g, [])) && !IsGroup(groups, g.id)
    ensures TablesInv(groups + [g], ledger) && RoomAt(groups + [g], ledger, |groups|) == Room(g, [])
  {
    var groups' := groups + [g];
    NoRowsOf(ledger, g.id);
    forall k | 0 <= k < |groups'| ensures RoomInv(RoomAt(groups', ledger, k)) {
      if k < |groups| { assert RoomInv(RoomAt(groups, ledger, k)); }
    }
    forall n | 0 <= n < |ledger| ensures IsGroup(groups', ledger[n].booking) {
      assert IsGroup(groups, ledger[n].booking);
      var k :| 0 <= k < |groups| && groups[k].id == ledger[n].booking;
      assert groups'[k].id == ledger[n].booking;
    }
  }

  // ---- a failing pass -------------------------------------------------------------------------------------

  /** What a failing pass makes of a group. */
  function Swept(g: Group, due: bool): Group {
    if due then FailedGroup(g) else g
  }

  function CountDue(due: seq<bool>): nat {
    if due == [] then 0 else CountDue(due[..|due| - 1]) + (if due[|due| - 1] then 1 else 0)
  }

  function DueSet(due: seq<bool>): set<int> {
    set k | 0 <= k < |due| && due[k]
  }

  /** The count is the number of positions that are due. */
  lemma {:induction false} CountedOnceEach(due: seq<bool>)
    ensures CountDue(due) == |DueSet(due)|
  {
    if due == [] {
      assert DueSet(due) == {};
    } else {
      var front, last := due[..|due| - 1], |due| - 1;
      CountedOnceEach(front);
      assert forall k :: 0 <= k < last ==> front[k] == due[k];
      assert DueSet(due) == DueSet(front) + (if due[last] then {last} else {});
    }
  }

  function Join(parts: seq<seq<LedgerRow>>): seq<LedgerRow> {
    if parts == [] then [] else Join(parts[..|parts| - 1]) + parts[|parts| - 1]
  }

  lemma {:induction false} JoinOfNone(parts: seq<seq<LedgerRow>>, id: nat)
    requires forall m :: 0 <= m < |parts| ==> RowsOf(parts[m], id) == []
    ensures RowsOf(Join(parts), id) == []
  {
    if parts != [] {
      JoinOfNone(parts[..|parts| - 1], id);
      RowsOfTwo(Join(parts[..|parts| - 1]), parts[|parts| - 1], id);
    }
  }

  /** If only part `k` has rows of the booking, they are all the rows it has. */
  lemma {:induction false} JoinOfOne(parts: seq<seq<LedgerRow>>, k: nat, id: nat)
    requires k < |parts| && forall m :: 0 <= m < |parts| && m != k ==> RowsOf(parts[m], id) == []
    ensures RowsOf(Join(parts), id) == RowsOf(parts[k], id)
  {
    var front, last := parts[..|parts| - 1], parts[|parts| - 1];
    RowsOfTwo(Join(front), last, id);
    if k == |parts| - 1 {
      JoinOfNone(front, id);
    } else {
      JoinOfOne(front, k, id);
    }
  }

  /** What the pass writes at the turn of group `m`. */
  function TurnRows(groups: seq<Group>, due: seq<bool>, reason: RefundReason, m: nat): seq<LedgerRow>
    requires m < |groups| == |due|
  {
    if due[m] then FailureRows(groups[m], reason) else []
  }

  /** The refunds of a failing pass over the first `n` groups, in table order. */
  function SweepRows(groups: seq<Group>, due: seq<bool>, reason: RefundReason, n: nat): seq<LedgerRow>
    requires n <= |groups| == |due|
  {
    Join(seq(n, m requires 0 <= m < n => TurnRows(groups, due, reason, m)))
  }

  lemma NextRows(groups: seq<Group>, due: seq<bool>, reason: RefundReason, n: nat)
    requires n < |groups| == |due|
    ensures SweepRows(groups, due, reason, n + 1) == SweepRows(groups, due, reason, n) + TurnRows(groups, due, reason, n)
  {
    var parts := seq(n + 1, m requires 0 <= m < n + 1 => TurnRows(groups, due, reason, m));
    assert parts[..n] == seq(n, m requires 0 <= m < n => TurnRows(groups, due, reason, m));
  }

  function AllExpired(groups: seq<Group>, now: int): (due: seq<bool>)
    ensures |due| == |groups|
  {
    seq(|groups|, k requires 0 <= k < |groups| => InviteExpired(groups[k], now))
  }

  function AllOverdue(groups: seq<Group>, now: int): (due: seq<bool>)
    ensures |due| == |groups|
  {
    seq(|groups|, k requires 0 <= k < |groups| => ReviewOverdue(groups[k], now))
  }

  function Pass(groups: seq<Group>, due: seq<bool>): (after: seq<Group>)
    requires |due| == |groups|
    ensures |after| == |groups|
  {
    seq(|groups|, k requires 0 <= k < |groups| => Swept(groups[k], due[k]))
  }

  lemma SweepRowsOf(groups: seq<Group>, due: seq<bool>, reason: RefundReason, n: nat, k: nat)
    requires n <= |groups| == |due| && k < |groups| && DistinctIds(groups)
    ensures RowsOf(SweepRows(groups, due, reason, n), groups[k].id)
            == if k < n && due[k] then FailureRows(groups[k], reason) else []
  {
    var parts := seq(n, m requires 0 <= m < n => TurnRows(groups, due, reason, m));
    forall m | 0 <= m < n
      ensures RowsOf(parts[m], groups[k].id) == if m == k then TurnRows(groups, due, reason, k) else []
    {
    }
    if k < n {
      JoinOfOne(parts, k, groups[k].id);
    } else {
      JoinOfNone(parts, groups[k].id);
    }
  }

  lemma {:induction false} SweepRowsBelong(groups: seq<Group>, due: seq<bool>, reason: RefundReason, n: nat)
    requires n <= |groups| == |due|
    ensures forall m :: 0 <= m < |SweepRows(groups, due, reason, n)| ==>
              IsGroup(groups, SweepRows(groups, due, reason, n)[m].booking)
  {
    if n > 0 {
      SweepRowsBelong(groups, due, reason, n - 1);
      NextRows(groups, due, reason, n - 1);
      assert groups[n - 1].id == groups[n - 1].id;
    }
  }

  /** Where the pass stands after `k` groups. */
  predicate Passed(before: seq<Group>, rows: seq<LedgerRow>, due: seq<bool>, reason: RefundReason, k: nat,
                   groups: seq<Group>, ledger: seq<LedgerRow>)
    requires k <= |before| == |due|
  {
    && |groups| == |before|
    && (forall j :: 0 <= j < |before| ==> groups[j] == if j < k then Swept(before[j], due[j]) else before[j])
    && ledger == rows + SweepRows(before, due, reason, k)
  }

  lemma NonePassed(groups: seq<Group>, ledger: seq<LedgerRow>, due: seq<bool>, reason: RefundReason)
    requires |due| == |groups|
    ensures Passed(groups, ledger, due, reason, 0, groups, ledger)
  {
    assert SweepRows(groups, due, reason, 0) == [];
  }

  lemma OnePassed(before: seq<Group>, rows: seq<LedgerRow>, due: seq<bool>, reason: RefundReason, k: nat,
                  groups: seq<Group>, ledger: seq<LedgerRow>)
    requires k < |before| == |due| && Passed(before, rows, due, reason, k, groups, ledger)
    ensures groups[k] == before[k]
    ensures Passed(before, rows, due, reason, k + 1, groups[k := Swept(groups[k], due[k])],
                   ledger + if due[k] then FailureRows(groups[k], reason) else [])
  {
    NextRows(before, due, reason, k);
  }

  lemma AllPassed(before: seq<Group>, rows: seq<LedgerRow>, due: seq<bool>, reason: RefundReason,
                  groups: seq<Group>, ledger: seq<LedgerRow>)
    requires |due| == |before| && Passed(before, rows, due, reason, |before|, groups, ledger)
    ensures groups == Pass(before, due) && ledger == rows + SweepRows(before, due, reason, |before|)
  {
  }

  /** Tables after the pass: every due room has failed, with its own refund, and no other room changed. */
  lemma PassFails(groups: seq<Group>, ledger: seq<LedgerRow>, due: seq<bool>, reason: RefundReason, k: nat)
    requires DistinctIds(groups) && |due| == |groups| && k < |groups| && (due[k] ==> groups[k].phase != Failed)
    ensures RoomAt(Pass(groups, due), ledger + SweepRows(groups, due, reason, |groups|), k)
            == if due[k] then Fail(RoomAt(groups, ledger, k), reason) else RoomAt(groups, ledger, k)
  {
    SweepRowsOf(groups, due, reason, |groups|, k);
    RowsOfTwo(ledger, SweepRows(groups, due, reason, |groups|), groups[k].id);
  }

  lemma PassKeeps(groups: seq<Group>, ledger: seq<LedgerRow>, due: seq<bool>, reason: RefundReason)
    requires TablesInv(groups, ledger) && |due| == |groups|
    requires forall k :: 0 <= k < |groups| && due[k] ==> groups[k].phase == Forming || groups[k].phase == TutorReview
    ensures TablesInv(Pass(groups, due), ledger + SweepRows(groups, due, reason, |groups|))
  {
    var groups', rows := Pass(groups, due), SweepRows(groups, due, reason, |groups|);
    forall k | 0 <= k < |groups| ensures RoomInv(RoomAt(groups', ledger + rows, k)) {
      assert RoomInv(RoomAt(groups, ledger, k));
      PassFails(groups, ledger, due, reason, k);
      if due[k] { FailKeeps(RoomAt(groups, ledger, k), reason); }
    }
    SweepRowsBelong(groups, due, reason, |groups|);
    forall n | 0 <= n < |ledger + rows| ensures IsGroup(groups, (ledger + rows)[n].booking) {}
    SameGroups(groups, groups', ledger + rows);
  }
}
