/** The group service as it runs: a table of groups and the refund ledger, invitations and their answers,
    the host's payment, the tutor's decision and the two sweeps. */
module GroupDesk {
  import opened Basics
  import opened Bookings
  import opened GroupSessions
  import opened GroupConsents
  import opened GroupTables
  import opened InviteEmails

  /** A user row found by its address. */
  datatype Account = Account(user: User, suspended: bool)

  /** The accounts of the listed addresses, in list order; an address without one is left out. */
  function AccountsOf(emails: seq<string>, accounts: map<string, Account>): seq<Account> {
    if emails == [] then []
    else
      var last := emails[|emails| - 1];
      AccountsOf(emails[..|emails| - 1], accounts) + (if last in accounts then [accounts[last]] else [])
  }

  function UsersOf(found: seq<Account>): seq<User> {
    seq(|found|, k requires 0 <= k < |found| => found[k].user)
  }

  predicate AnySuspended(found: seq<Account>) {
    exists k :: 0 <= k < |found| && found[k].suspended
  }

  lemma {:induction false} AllHaveAccountsIff(emails: seq<string>, accounts: map<string, Account>)
    ensures |AccountsOf(emails, accounts)| <= |emails|
    ensures |AccountsOf(emails, accounts)| == |emails| <==> forall email :: email in emails ==> email in accounts
  {
    if emails != [] {
      var front, last := emails[..|emails| - 1], emails[|emails| - 1];
      AllHaveAccountsIff(front, accounts);
      assert forall email :: email in emails <==> email in front || email == last;
    }
  }

  /** The whole request: clean the list, then invite those found. */
  function InviteList(r: Room, user: User, raw: seq<string>, fold: string -> string, hostEmail: string,
                      present: set<string>, accounts: map<string, Account>): RoomResult {
    var emails := FirstsOf(raw, fold);
    var found := AccountsOf(emails, accounts);
    if r.g.host != user then RoomRefused(Forbidden)
    else if exists k :: 0 <= k < |raw| && Offends(raw[k], fold, hostEmail, present) then RoomRefused(BadRequest)
    else
      AllHaveAccountsIff(emails, accounts);
      Invite(r, user, UsersOf(found), |emails| - |found|, AnySuspended(found))
  }

  // ---- who gets an invitation ------------------------------------------------------------------------------

  lemma {:induction false} AccountsExact(emails: seq<string>, accounts: map<string, Account>, found: Account)
    ensures found in AccountsOf(emails, accounts)
            <==> exists email :: email in emails && email in accounts && accounts[email] == found
  {
    if emails != [] {
      var front, last := emails[..|emails| - 1], emails[|emails| - 1];
      AccountsExact(front, accounts, found);
      assert forall email :: email in emails <==> email in front || email == last;
    }
  }

  /** The address is on the list that was typed, however it was spelt. */
  predicate Typed(raw: seq<string>, fold: string -> string, email: string) {
    email != "" && exists k :: 0 <= k < |raw| && fold(raw[k]) == email
  }

  lemma NobodyOffendsIff(raw: seq<string>, fold: string -> string, hostEmail: string, present: set<string>)
    ensures (forall k :: 0 <= k < |raw| ==> !Offends(raw[k], fold, hostEmail, present))
            <==> forall email :: Typed(raw, fold, email) ==> email != fold(hostEmail) && email !in present
  {
    if forall email :: Typed(raw, fold, email) ==> email != fold(hostEmail) && email !in present {
      forall k | 0 <= k < |raw| ensures !Offends(raw[k], fold, hostEmail, present) {
        assert fold(raw[k]) != "" ==> Typed(raw, fold, fold(raw[k]));
      }
    }
  }

  lemma NobodySuspendedIff(emails: seq<string>, accounts: map<string, Account>)
    ensures AnySuspended(AccountsOf(emails, accounts))
            <==> exists email :: email in emails && email in accounts && accounts[email].suspended
  {
    var found := AccountsOf(emails, accounts);
    if k :| 0 <= k < |found| && found[k].suspended {
      AccountsExact(emails, accounts, found[k]);
    }
    if email :| email in emails && email in accounts && accounts[email].suspended {
      AccountsExact(emails, accounts, accounts[email]);
      var k :| 0 <= k < |found| && found[k] == accounts[email];
    }
  }

  /** A list is taken if and only if its host sends it while the group is forming, its addresses fit, and every one
      belongs to somebody else who is not on it yet, has an account and is not suspended. */
  lemma ListIsTakenIff(r: Room, user: User, raw: seq<string>, fold: string -> string, hostEmail: string,
                       present: set<string>, accounts: map<string, Account>)
    requires RoomInv(r)
    ensures InviteList(r, user, raw, fold, hostEmail, present, accounts).RoomOk?
            <==> && user == r.g.host && r.g.phase == Forming && |r.g.seats| + |FirstsOf(raw, fold)| <= r.g.capacity
                 && forall email :: Typed(raw, fold, email) ==>
                      email != fold(hostEmail) && email !in present && email in accounts && !accounts[email].suspended
  {
    var emails := FirstsOf(raw, fold);
    FirstsExact(raw, fold);
    assert forall email :: email in emails <==> Typed(raw, fold, email);
    NobodyOffendsIff(raw, fold, hostEmail, present);
    AllHaveAccountsIff(emails, accounts);
    NobodySuspendedIff(emails, accounts);
    if InviteList(r, user, raw, fold, hostEmail, present, accounts).RoomOk? {
      assert |AccountsOf(emails, accounts)| == |emails|;
    }
  }

  /** Then exactly the owners of the addresses join those who have a place. */
  lemma ListedGetPlaces(r: Room, user: User, raw: seq<string>, fold: string -> string, hostEmail: string,
                        present: set<string>, accounts: map<string, Account>, guest: User)
    requires RoomInv(r) && InviteList(r, user, raw, fold, hostEmail, present, accounts).RoomOk?
    ensures HasPlace(InviteList(r, user, raw, fold, hostEmail, present, accounts).room.g, guest)
            <==> HasPlace(r.g, guest)
                 || (guest != r.g.host
                     && exists email :: Typed(raw, fold, email) && email in accounts && accounts[email].user == guest)
  {
    var emails := FirstsOf(raw, fold);
    var found := AccountsOf(emails, accounts);
    FirstsExact(raw, fold);
    assert forall email :: email in emails <==> Typed(raw, fold, email);
    AllHaveAccountsIff(emails, accounts);
    ListedAreInvited(r, OnInvite(user, UsersOf(found), |emails| - |found|, AnySuspended(found)), guest);
    if k :| 0 <= k < |found| && found[k].user == guest {
      AccountsExact(emails, accounts, found[k]);
      assert guest == UsersOf(found)[k];
    }
    if email :| email in emails && email in accounts && accounts[email].user == guest {
      AccountsExact(emails, accounts, accounts[email]);
      var k :| 0 <= k < |found| && found[k] == accounts[email];
      assert UsersOf(found)[k] == guest;
    }
  }

  class Sessions {
    var groups: seq<Group>
    var ledger: seq<LedgerRow>

    predicate Valid()
      reads this
    {
      TablesInv(groups, ledger)
    }

    function At(k: nat): Room
      requires k < |groups|
      reads this
    {
      RoomAt(groups, ledger, k)
    }

    constructor ()
      ensures Valid() && groups == [] && ledger == []
    {
      groups, ledger := [], [];
    }

    /** The group part of a created booking; `id` is the new row's own. */
    method Gather(id: nat, host: User, tutorUser: User, price: nat, capacity: nat, start: int, now: int)
      requires Valid() && 2 <= capacity && !IsGroup(groups, id)
      modifies this`groups
      ensures Valid() && |groups| == |old(groups)| + 1 && groups[..|old(groups)|] == old(groups)
      ensures At(|old(groups)|) == Gathered(id, host, tutorUser, price, capacity, start, now)
    {
      var expiresAt := start - 24 * HOUR;
      if expiresAt <= now { expiresAt := start - HOUR; }
      var g := Group(id, host, tutorUser, price, capacity, start, Requested, Forming, None, Some(expiresAt),
                     [Seat(host, Host, Seated, Some(now))], None);
      GatheredInv(id, host, tutorUser, price, capacity, start, now);
      NewGroupJoins(groups, ledger, g);
      groups := groups + [g];
    }

    /** The transaction of a failure. */
    method CloseGroup(k: nat, reason: RefundReason)
      requires k < |groups| && groups[k].phase != Failed
      modifies this
      ensures groups == old(groups)[k := FailedGroup(old(groups)[k])]
      ensures ledger == old(ledger) + FailureRows(old(groups)[k], reason)
    {
      var g := groups[k];
      if g.intent.Some? {
        var x := g.intent.value;
        if x.status == HeldInEscrow {
          ledger := ledger + [LedgerRow(g.id, g.id, x.amount, x.amount, 0, 0, reason)];
          x := x.(status := IntentStatus.Refunded, amount := 0);
        } else if x.status in {PendingTransfer, SlipUploaded, Verifying} {
          x := x.(status := SlipFailed);
        }
        g := g.(intent := Some(x));
      }
      groups := groups[k := g.(phase := Failed, booked := Cancelled)];
    }

    /** One group fails: refund if its money is held, intent and row closed. */
    method FailGroup(k: nat, reason: RefundReason)
      requires Valid() && k < |groups| && groups[k].phase != Confirmed
      modifies this
      ensures Valid()
      ensures Turn(RoomOk(Fail(old(At(k)), reason)), None, k, old(groups), old(ledger), groups, ledger)
    {
      if groups[k].phase == Failed { return; }
      FailureTurns(groups, ledger, k, reason);
      CloseGroup(k, reason);
    }

    method CloseIfDue(k: nat, due: bool, reason: RefundReason)
      requires k < |groups| && (due ==> groups[k].phase != Failed)
      modifies this
      ensures groups == old(groups)[k := Swept(old(groups)[k], due)]
      ensures ledger == old(ledger) + if due then FailureRows(old(groups)[k], reason) else []
    {
      if due { CloseGroup(k, reason); }
    }

    /** Fail every group that was due when the candidates were read. */
    method FailAll(due: seq<bool>, reason: RefundReason) returns (failed: nat)
      requires |due| == |groups|
      requires forall k :: 0 <= k < |groups| && due[k] ==> groups[k].phase != Failed
      modifies this
      ensures groups == Pass(old(groups), due)
      ensures ledger == old(ledger) + SweepRows(old(groups), due, reason, |due|)
      ensures failed == CountDue(due)
    {
      failed := 0;
      NonePassed(groups, ledger, due, reason);
      for k := 0 to |due|
        invariant Passed(old(groups), old(ledger), due, reason, k, groups, ledger)
        invariant failed == CountDue(due[..k])
      {
        assert due[..k + 1][..k] == due[..k];
        OnePassed(old(groups), old(ledger), due, reason, k, groups, ledger);
        CloseIfDue(k, due[k], reason);
        if due[k] { failed := failed + 1; }
      }
      AllPassed(old(groups), old(ledger), due, reason, groups, ledger);
      assert due[..|due|] == due;
    }

    /** Every group meets the sweep at instant `now`; the expired forming ones fail. */
    method RunInviteExpirySweep(now: int) returns (failed: nat)
      requires Valid()
      modifies this
      ensures Valid() && failed == CountDue(AllExpired(old(groups), now))
      ensures groups == Pass(old(groups), AllExpired(old(groups), now))
      ensures ledger == old(ledger) + SweepRows(old(groups), AllExpired(old(groups), now), GroupInviteExpired, |old(groups)|)
      ensures forall k :: 0 <= k < |groups| ==> GroupMoves(old(At(k)), OnInviteSweep(now), At(k))
    {
      ghost var due, before, rows := AllExpired(groups, now), groups, ledger;
      PassKeeps(groups, ledger, due, GroupInviteExpired);
      failed := FailAll(AllExpired(groups, now), GroupInviteExpired);
      forall k | 0 <= k < |groups| ensures GroupMoves(RoomAt(before, rows, k), OnInviteSweep(now), At(k)) {
        PassFails(before, rows, due, GroupInviteExpired, k);
      }
    }

    method RunPaymentDeadlineSweep(now: int) returns (failed: nat)
      requires Valid()
      modifies this
      ensures Valid() && failed == CountDue(AllOverdue(old(groups), now))
      ensures groups == Pass(old(groups), AllOverdue(old(groups), now))
      ensures ledger == old(ledger) + SweepRows(old(groups), AllOverdue(old(groups), now), GroupPaymentIncomplete, |old(groups)|)
      ensures forall k :: 0 <= k < |groups| ==> GroupMoves(old(At(k)), OnReviewSweep(now), At(k))
    {
      ghost var due, before, rows := AllOverdue(groups, now), groups, ledger;
      PassKeeps(groups, ledger, due, GroupPaymentIncomplete);
      failed := FailAll(AllOverdue(groups, now), GroupPaymentIncomplete);
      forall k | 0 <= k < |groups| ensures GroupMoves(RoomAt(before, rows, k), OnReviewSweep(now), At(k)) {
        PassFails(before, rows, due, GroupPaymentIncomplete, k);
      }
    }

    /** The row of group `k` becomes `g`. */
    method Store(k: nat, g: Group)
      requires Valid() && k < |groups| && g.id == groups[k].id && RoomInv(Room(g, At(k).ledger))
      modifies this`groups
      ensures Valid() && groups == old(groups)[k := g]
      ensures Turn(RoomOk(Room(g, old(At(k)).ledger)), None, k, old(groups), ledger, groups, ledger)
    {
      RowTurns(groups, ledger, k, g);
      groups := groups[k := g];
    }

    /** The invitee's acceptance, and the move to review when the last seat is taken. */
    method AcceptInvitation(k: nat, user: User, now: int, free: bool) returns (refusal: Option<Refusal>)
      requires Valid() && k < |groups|
      modifies this`groups
      ensures Valid()
      ensures Turn(AcceptInvite(old(At(k)), user, now, free), refusal, k, old(groups), ledger, groups, ledger)
    {
      var g := groups[k];
      if g.phase != Forming { return Some(BadRequest); }
      if g.expiresAt.Some? && g.expiresAt.value < now { return Some(BadRequest); }
      if !Seats(g.seats, user) { return Some(Forbidden); }
      var n := SeatOf(g.seats, user);
      if Taken(g.seats[n]) { return None; }
      if g.seats[n].status == Declined || g.seats[n].status == SeatExpired { return Some(Conflict); }
      if !free { return Some(Clash(ExistingBooking)); }
      AcceptKeeps(At(k), user, now, free);
      g := g.(seats := g.seats[n := g.seats[n].(status := Seated, acceptedAt := Some(now))]);
      if ShouldMoveToTutorReview(g.seats, g.capacity) {
        g := g.(phase := TutorReview);
      }
      Store(k, g);
      return None;
    }

    method LookUp(emails: seq<string>, accounts: map<string, Account>) returns (found: seq<Account>)
      ensures found == AccountsOf(emails, accounts) && |found| <= |emails|
    {
      found := [];
      for n := 0 to |emails|
        invariant found == AccountsOf(emails[..n], accounts) && |found| <= n
      {
        assert emails[..n + 1][..n] == emails[..n];
        if emails[n] in accounts { found := found + [accounts[emails[n]]]; }
      }
      assert emails[..|emails|] == emails;
    }

    method HasSeat(seats: seq<Seat>, user: User) returns (seated: bool)
      ensures seated == Seats(seats, user)
    {
      for n := 0 to |seats|
        invariant forall m :: 0 <= m < n ==> seats[m].student != user
      {
        if seats[n].student == user { return true; }
      }
      return false;
    }

    /** One row per user, skipping a user who has one. */
    method TakeSeats(seats: seq<Seat>, users: seq<User>) returns (taken: seq<Seat>)
      ensures taken == AddSeats(seats, users)
    {
      taken := seats;
      for n := 0 to |users|
        invariant taken == AddSeats(seats, users[..n])
      {
        assert users[..n + 1][..n] == users[..n];
        var seated := HasSeat(taken, users[n]);
        if !seated { taken := taken + [Seat(users[n], Invitee, Invited, None)]; }
      }
      assert users[..|users|] == users;
    }

    /** The host's list: cleaned, counted against the capacity, looked up, then seated. */
    method InviteByEmail(k: nat, user: User, raw: seq<string>, fold: string -> string, hostEmail: string,
                         present: set<string>, accounts: map<string, Account>) returns (refusal: Option<Refusal>)
      requires Valid() && k < |groups|
      modifies this`groups
      ensures Valid()
      ensures Turn(InviteList(old(At(k)), user, raw, fold, hostEmail, present, accounts),
                   refusal, k, old(groups), ledger, groups, ledger)
    {
      var g := groups[k];
      if g.host != user { return Some(Forbidden); }
      if g.phase != Forming { return Some(BadRequest); }
      var cleaning := NormalizeInviteEmails(raw, fold, hostEmail, present);
      if !cleaning.Clean? { return Some(BadRequest); }
      if |g.seats| + |cleaning.emails| > g.capacity { return Some(BadRequest); }
      var found := LookUp(cleaning.emails, accounts);
      if |found| < |cleaning.emails| { return Some(BadRequest); }
      if n :| 0 <= n < |found| && found[n].suspended { return Some(BadRequest); }
      AllHaveAccountsIff(cleaning.emails, accounts);
      GroupStepKeeps(At(k), OnInvite(user, UsersOf(found), |cleaning.emails| - |found|, AnySuspended(found)));
      var seats := TakeSeats(g.seats, UsersOf(found));
      Store(k, g.(seats := seats));
      return None;
    }

    method DeclineInvitation(k: nat, user: User) returns (refusal: Option<Refusal>)
      requires Valid() && k < |groups|
      modifies this`groups
      ensures Valid()
      ensures Turn(DeclineInvite(old(At(k)), user), refusal, k, old(groups), ledger, groups, ledger)
    {
      var g := groups[k];
      if g.phase != Forming { return Some(BadRequest); }
      if !Seats(g.seats, user) { return Some(Forbidden); }
      var n := SeatOf(g.seats, user);
      if g.seats[n].role == Host { return Some(BadRequest); }
      if g.seats[n].status == Declined { return None; }
      if g.seats[n].status == HostPaid { return Some(Conflict); }
      DeclineKeeps(At(k), user);
      Store(k, g.(seats := g.seats[n := g.seats[n].(status := Declined)]));
      return None;
    }

    /** Only stamps the time; a second approval changes nothing. */
    method Approve(k: nat, user: User, now: int) returns (refusal: Option<Refusal>)
      requires Valid() && k < |groups|
      modifies this`groups
      ensures Valid()
      ensures Turn(ApproveGroup(old(At(k)), user, now), refusal, k, old(groups), ledger, groups, ledger)
    {
      var g := groups[k];
      if g.tutorUser != user { return Some(Forbidden); }
      if g.phase != TutorReview { return Some(BadRequest); }
      if g.approvedAt.None? {
        GroupStepKeeps(At(k), OnApprove(user, now));
        Store(k, g.(approvedAt := Some(now)));
      }
      return None;
    }

    method Reject(k: nat, user: User) returns (refusal: Option<Refusal>)
      requires Valid() && k < |groups|
      modifies this
      ensures Valid()
      ensures Turn(RejectGroup(old(At(k)), user), refusal, k, old(groups), old(ledger), groups, ledger)
    {
      var g := groups[k];
      if g.tutorUser != user { return Some(Forbidden); }
      if g.phase != TutorReview { return Some(BadRequest); }
      FailGroup(k, GroupRejectedByTutor);
      return None;
    }

    method ExtendInvitation(k: nat, user: User) returns (refusal: Option<Refusal>)
      requires Valid() && k < |groups|
      modifies this`groups
      ensures Valid()
      ensures Turn(ExtendInvite(old(At(k)), user), refusal, k, old(groups), ledger, groups, ledger)
    {
      var g := groups[k];
      if g.host != user { return Some(Forbidden); }
      if g.phase != Forming { return Some(BadRequest); }
      if g.expiresAt.None? { return Some(BadRequest); }
      var ceiling := g.start - HOUR;
      var next := g.expiresAt.value + 24 * HOUR;
      if next > ceiling { next := ceiling; }
      if next <= g.expiresAt.value { return Some(BadRequest); }
      GroupStepKeeps(At(k), OnExtend(user));
      Store(k, g.(expiresAt := Some(next)));
      return None;
    }

    // ---- the host's payment --------------------------------------------------------------------------

    method OpenPayment(k: nat, user: User) returns (refusal: Option<Refusal>)
      requires Valid() && k < |groups|
      modifies this`groups
      ensures Valid()
      ensures Turn(OpenHostIntent(old(At(k)), user), refusal, k, old(groups), ledger, groups, ledger)
    {
      var g := groups[k];
      if g.host != user { return Some(Forbidden); }
      if g.phase != Forming && g.phase != TutorReview { return Some(BadRequest); }
      if g.intent.None? {
        GroupStepKeeps(At(k), OnOpenIntent(user));
        Store(k, g.(intent := Some(Intent(g.id, user, g.price, PendingTransfer))));
      }
      return None;
    }

    method RegisterSlip(k: nat, user: User) returns (refusal: Option<Refusal>)
      requires Valid() && k < |groups|
      modifies this`groups
      ensures Valid()
      ensures Turn(UploadHostSlip(old(At(k)), user), refusal, k, old(groups), ledger, groups, ledger)
    {
      var g := groups[k];
      if g.intent.None? { return Some(NotFound); }
      if g.intent.value.payer != user { return Some(Forbidden); }
      GroupStepKeeps(At(k), OnUploadSlip(user));
      Store(k, g.(intent := Some(g.intent.value.(status := SlipUploaded))));
      return None;
    }

    /** The approved slip and its callback. */
    method OnParticipantPaid(k: nat) returns (refusal: Option<Refusal>)
      requires Valid() && k < |groups|
      modifies this`groups
      ensures Valid()
      ensures Turn(SlipCleared(old(At(k))), refusal, k, old(groups), ledger, groups, ledger)
    {
      var g := groups[k];
      if g.intent.None? { return Some(NotFound); }
      if !AwaitsReview(g.intent.value.status) { return Some(BadRequest); }
      SlipClearedKeeps(At(k));
      g := g.(intent := Some(g.intent.value.(status := HeldInEscrow)));
      if |g.seats| > 0 && g.seats[0].role == Host && g.seats[0].student == g.intent.value.payer
         && g.seats[0].status != HostPaid {
        g := g.(seats := g.seats[0 := g.seats[0].(status := HostPaid)]);
      }
      if g.phase == TutorReview && g.approvedAt.Some? {
        g := g.(phase := Confirmed, booked := Paid);
      }
      Store(k, g);
      return None;
    }
  }

  // ---- what the two sweeps achieve together ------------------------------------------------------------

  /** Both sweeps at one instant, the invitation sweep first. */
  function AfterSweeps(groups: seq<Group>, now: int): (after: seq<Group>)
    ensures |after| == |groups|
  {
    var first := Pass(groups, AllExpired(groups, now));
    Pass(first, AllOverdue(first, now))
  }

  function SweepLedger(groups: seq<Group>, now: int): seq<LedgerRow> {
    var first := Pass(groups, AllExpired(groups, now));
    SweepRows(groups, AllExpired(groups, now), GroupInviteExpired, |groups|)
    + SweepRows(first, AllOverdue(first, now), GroupPaymentIncomplete, |groups|)
  }

  predicate Due(g: Group, now: int) {
    InviteExpired(g, now) || ReviewOverdue(g, now)
  }

  /** Exactly the due groups fail, every other group is untouched, and nothing due is left. */
  lemma SweepsFailExactlyTheDue(groups: seq<Group>, now: int)
    ensures forall k :: 0 <= k < |groups| ==>
              AfterSweeps(groups, now)[k] == Swept(groups[k], Due(groups[k], now))
              && !Due(AfterSweeps(groups, now)[k], now)
  {
    var first := Pass(groups, AllExpired(groups, now));
    forall k | 0 <= k < |groups|
      ensures AfterSweeps(groups, now)[k] == Swept(groups[k], Due(groups[k], now))
              && !Due(AfterSweeps(groups, now)[k], now)
    {
      assert first[k] == Swept(groups[k], InviteExpired(groups[k], now));
    }
  }

  lemma {:induction false} NothingDueNoRows(groups: seq<Group>, due: seq<bool>, reason: RefundReason, n: nat)
    requires n <= |groups| == |due| && forall k :: 0 <= k < n ==> !due[k]
    ensures SweepRows(groups, due, reason, n) == []
  {
    if n > 0 {
      NothingDueNoRows(groups, due, reason, n - 1);
      NextRows(groups, due, reason, n - 1);
    }
  }

  /** Sweeping again at the same instant changes no group and writes no row. */
  lemma SecondSweepIsIdle(groups: seq<Group>, now: int)
    ensures AfterSweeps(AfterSweeps(groups, now), now) == AfterSweeps(groups, now)
    ensures SweepLedger(AfterSweeps(groups, now), now) == []
  {
    var after := AfterSweeps(groups, now);
    SweepsFailExactlyTheDue(groups, now);
    NothingDueNoRows(after, AllExpired(after, now), GroupInviteExpired, |after|);
    assert Pass(after, AllExpired(after, now)) == after;
    NothingDueNoRows(after, AllOverdue(after, now), GroupPaymentIncomplete, |after|);
    assert Pass(after, AllOverdue(after, now)) == after;
  }

  /** Together the sweeps refund each due group's held escrow in full and once, and nothing else. */
  lemma SweepsRefundOnce(groups: seq<Group>, now: int, k: nat)
    requires k < |groups| && DistinctIds(groups)
    ensures RowsOf(SweepLedger(groups, now), groups[k].id)
            == if InviteExpired(groups[k], now) then FailureRows(groups[k], GroupInviteExpired)
               else if ReviewOverdue(groups[k], now) then FailureRows(groups[k], GroupPaymentIncomplete)
               else []
  {
    var first := Pass(groups, AllExpired(groups, now));
    assert DistinctIds(first) && first[k].id == groups[k].id;
    SweepRowsOf(groups, AllExpired(groups, now), GroupInviteExpired, |groups|, k);
    SweepRowsOf(first, AllOverdue(first, now), GroupPaymentIncomplete, |groups|, k);
    RowsOfTwo(SweepRows(groups, AllExpired(groups, now), GroupInviteExpired, |groups|),
              SweepRows(first, AllOverdue(first, now), GroupPaymentIncomplete, |groups|), groups[k].id);
  }
}
