/** The journey that nothing stands in the way of: friends are invited, all of them accept, the tutor approves,
    the host pays, and the class is confirmed; for groups of any size. */
module GroupJourneys {
  import opened Basics
  import opened Bookings
  import opened GroupSessions

  /** The steps one after the other; the first refusal ends it. */
  function Through(r: Room, es: seq<GroupEvent>): RoomResult
    decreases |es|
  {
    if es == [] then RoomOk(r)
    else
      var next := GroupStep(r, es[0]);
      if next.RoomRefused? then next else Through(next.room, es[1..])
  }

  lemma {:induction false} ThroughBoth(r: Room, es: seq<GroupEvent>, more: seq<GroupEvent>)
    requires Through(r, es).RoomOk?
    ensures Through(r, es + more) == Through(Through(r, es).room, more)
    decreases |es|
  {
    if es == [] {
      assert es + more == more;
    } else {
      ThroughBoth(GroupStep(r, es[0]).room, es[1..], more);
      assert (es + more)[1..] == es[1..] + more;
    }
  }

  predicate Friends(host: User, users: seq<User>) {
    host !in users && forall m, n :: 0 <= m < n < |users| ==> users[m] != users[n]
  }

  /** The host, and the friends of whom the first `yes` have accepted. */
  function SeatsAfter(host: Seat, users: seq<User>, yes: nat, at: int): seq<Seat> {
    [host] + seq(|users|, n requires 0 <= n < |users| =>
      if n < yes then Seat(users[n], Invitee, Seated, Some(at)) else Seat(users[n], Invitee, Invited, None))
  }

  lemma {:induction false} AllAreSeated(host: Seat, users: seq<User>, at: int)
    requires Friends(host.student, users)
    ensures AddSeats([host], users) == SeatsAfter(host, users, 0, at)
  {
    if users == [] {
      assert SeatsAfter(host, users, 0, at) == [host];
    } else {
      var front, last := users[..|users| - 1], users[|users| - 1];
      AllAreSeated(host, front, at);
      assert !Seats(SeatsAfter(host, front, 0, at), last);
      assert SeatsAfter(host, users, 0, at) == SeatsAfter(host, front, 0, at) + [Seat(last, Invitee, Invited, None)];
    }
  }

  /** A forming group in which the first `yes` friends have accepted; complete, it is in review. */
  function Filled(g: Group, users: seq<User>, yes: nat, at: int): Room
    requires |g.seats| > 0
  {
    Room(g.(seats := SeatsAfter(g.seats[0], users, yes, at), phase := if yes < |users| then Forming else TutorReview), [])
  }

  /** The next friend accepts. */
  lemma NextSaysYes(g: Group, users: seq<User>, yes: nat, at: int)
    requires |g.seats| > 0 && Taken(g.seats[0]) && Friends(g.seats[0].student, users) && yes < |users|
    requires g.capacity == |users| + 1 && g.expiresAt.Some? && at <= g.expiresAt.value
    ensures GroupStep(Filled(g, users, yes, at), OnAccept(users[yes], at, true)) == RoomOk(Filled(g, users, yes + 1, at))
  {
    var seats := SeatsAfter(g.seats[0], users, yes, at);
    assert seats[yes + 1].student == users[yes];
    assert SeatOf(seats, users[yes]) == yes + 1;
    var seats' := seats[yes + 1 := seats[yes + 1].(status := Seated, acceptedAt := Some(at))];
    assert seats' == SeatsAfter(g.seats[0], users, yes + 1, at);
    assert yes + 1 < |users| ==> !Taken(seats'[yes + 2]);
    assert ShouldMoveToTutorReview(seats', g.capacity) <==> yes + 1 == |users|;
  }

  function Answers(users: seq<User>, at: int): seq<GroupEvent> {
    seq(|users|, n requires 0 <= n < |users| => OnAccept(users[n], at, true))
  }

  lemma {:induction false} AllSayYes(g: Group, users: seq<User>, yes: nat, at: int)
    requires |g.seats| > 0 && Taken(g.seats[0]) && Friends(g.seats[0].student, users) && yes <= |users|
    requires g.capacity == |users| + 1 && g.expiresAt.Some? && at <= g.expiresAt.value
    ensures Through(Filled(g, users, 0, at), Answers(users, at)[..yes]) == RoomOk(Filled(g, users, yes, at))
  {
    if yes > 0 {
      AllSayYes(g, users, yes - 1, at);
      NextSaysYes(g, users, yes - 1, at);
      var before, e := Answers(users, at)[..yes - 1], OnAccept(users[yes - 1], at, true);
      ThroughBoth(Filled(g, users, 0, at), before, [e]);
      assert before + [e] == Answers(users, at)[..yes];
      assert [e][1..] == [];
    }
  }

  /** The tutor approves and the host pays. */
  function Closing(host: User, tutorUser: User, at: int): seq<GroupEvent> {
    [OnApprove(tutorUser, at), OnOpenIntent(host), OnUploadSlip(host), OnSlipCleared]
  }

  lemma ThroughFour(r: Room, a: GroupEvent, b: GroupEvent, c: GroupEvent, d: GroupEvent, r1: Room, r2: Room, r3: Room)
    requires GroupStep(r, a) == RoomOk(r1) && GroupStep(r1, b) == RoomOk(r2) && GroupStep(r2, c) == RoomOk(r3)
    requires GroupStep(r3, d).RoomOk?
    ensures Through(r, [a, b, c, d]) == GroupStep(r3, d)
  {
    assert [a, b, c, d][1..] == [b, c, d] && [b, c, d][1..] == [c, d] && [c, d][1..] == [d] && [d][1..] == [];
    assert Through(r3, [d]) == GroupStep(r3, d);
    assert Through(r2, [c, d]) == Through(r3, [d]);
    assert Through(r1, [b, c, d]) == Through(r2, [c, d]);
  }

  lemma ClosingConfirms(g: Group, users: seq<User>, at: int, approved: int)
    requires |g.seats| > 0 && g.seats[0].role == Host && g.seats[0].student == g.host && g.seats[0].status == Seated
    requires g.approvedAt.None? && g.intent.None?
    ensures Through(Filled(g, users, |users|, at), Closing(g.host, g.tutorUser, approved))
            == RoomOk(Room(g.(seats := SeatsAfter(g.seats[0].(status := HostPaid), users, |users|, at),
                              phase := Confirmed, booked := Paid, approvedAt := Some(approved),
                              intent := Some(Intent(g.id, g.host, g.price, HeldInEscrow))), []))
  {
    var r := Filled(g, users, |users|, at);
    var approvedRoom := r.(g := r.g.(approvedAt := Some(approved)));
    var billed := r.(g := approvedRoom.g.(intent := Some(Intent(g.id, g.host, g.price, PendingTransfer))));
    var waiting := r.(g := billed.g.(intent := Some(Intent(g.id, g.host, g.price, SlipUploaded))));
    ThroughFour(r, OnApprove(g.tutorUser, approved), OnOpenIntent(g.host), OnUploadSlip(g.host), OnSlipCleared,
                approvedRoom, billed, waiting);
    assert SeatsAfter(g.seats[0].(status := HostPaid), users, |users|, at) == MarkHostPaid(r.g.seats, g.host);
  }

  /** A host who invites the right number of distinct friends, each of whom accepts before the invitations end, gets a
      confirmed class once the tutor approves and the payment is reviewed; the money held is the price. */
  lemma OrdinaryGroup(id: nat, host: User, tutorUser: User, price: nat, capacity: nat, start: int, created: int,
                      users: seq<User>, at: int, approved: int)
    requires 2 <= capacity == |users| + 1 && Friends(host, users)
    requires at <= (if start - 86_400_000 > created then start - 86_400_000 else start - 3_600_000)
    ensures var r := Gathered(id, host, tutorUser, price, capacity, start, created);
            Through(r, [OnInvite(host, users, 0, false)] + Answers(users, at) + Closing(host, tutorUser, approved))
            == RoomOk(Room(r.g.(seats := SeatsAfter(Seat(host, Host, HostPaid, Some(created)), users, |users|, at),
                                phase := Confirmed, booked := Paid, approvedAt := Some(approved),
                                intent := Some(Intent(id, host, price, HeldInEscrow))), []))
  {
    var r := Gathered(id, host, tutorUser, price, capacity, start, created);
    var invite, answers := OnInvite(host, users, 0, false), Answers(users, at);
    AllAreSeated(r.g.seats[0], users, at);
    assert GroupStep(r, invite) == RoomOk(Filled(r.g, users, 0, at));
    assert [invite][1..] == [] && Through(r, [invite]) == GroupStep(r, invite);
    ThroughBoth(r, [invite], answers);
    AllSayYes(r.g, users, |users|, at);
    assert answers[..|users|] == answers;
    ThroughBoth(r, [invite] + answers, Closing(host, tutorUser, approved));
    ClosingConfirms(r.g, users, at, approved);
  }
}
