/** Concrete runs in which the order of events does harm: a slip reviewed after the booking left the
    payment stage, a slip registered for an intent that awaits none, and a report filed during a
    negotiation. */
module OutOfOrder {
  import opened Basics
  import opened RefundPolicy
  import opened Bookings
  import opened BookingInvariants
  import opened BookingRuns
  import opened SlipSteps
  import opened Proposals

  /** One tutor, user 100, and the given bookings and intents. */
  function OneTutor(bookings: seq<Booking>, intents: seq<Intent>): Db {
    Opening(0, Percentages(50.0, 10.0), [TutorProfile(100, 300, None, 0, [])]).(bookings := bookings, intents := intents)
  }

  function HourOf(student: User, status: BookingStatus, intent: Option<nat>): Booking {
    Booking(student, 0, status, DAY, 60, 300, None, OneOnOne, None, intent, None)
  }

  const SLIP: Intent := Intent(0, 1, 300, SlipUploaded)

  function Stage(n: nat): Db
    requires n <= 7
  {
    if n == 0 then OneTutor([], [])
    else if n == 1 then OneTutor([HourOf(1, Requested, None)], [])
    else if n == 2 then OneTutor([HourOf(1, Accepted, None)], [])
    else if n == 3 then OneTutor([HourOf(1, Accepted, Some(0))], [SLIP.(status := PendingTransfer)])
    else if n == 4 then OneTutor([HourOf(1, Accepted, Some(0))], [SLIP])
    else if n == 5 then OneTutor([HourOf(1, CancelledByStudent, Some(0))], [SLIP])
    else if n == 6 then OneTutor([HourOf(1, CancelledByStudent, Some(0)), HourOf(2, Requested, None)], [SLIP])
    else OneTutor([HourOf(1, Paid, Some(0)).(reportEnds := Some(DAY)), HourOf(2, Requested, None)],
              [SLIP.(status := HeldInEscrow)])
  }

  /** The student cancels after uploading a slip, another student books the hour, and then the slip
      is approved. */
  function StageEvent(n: nat): Event
    requires n < 7
  {
    if n == 0 then DoCreate(1, 0, DAY, 60, None, 0)
    else if n == 1 then DoAccept(100, 0)
    else if n == 2 then DoOpenIntent(1, 0)
    else if n == 3 then DoUploadSlip(1, 0)
    else if n == 4 then DoCancel(1, 0)
    else if n == 5 then DoCreate(2, 0, DAY, 60, None, 0)
    else DoApproveSlip(0, 0)
  }

  lemma CancelledHourIsFree()
    ensures Refs(Stage(5)) && GuardBoth(Stage(5), 2, 100, Lesson(DAY, 60), None).None?
  {
  }

  lemma CancelledHourIsBooked()
    ensures Refs(Stage(5)) && Step(Stage(5), StageEvent(5)) == Ok(Stage(6))
  {
    CancelledHourIsFree();
  }

  lemma FirstHourIsPaidFor(n: nat)
    requires 1 <= n <= 3
    ensures Refs(Stage(n)) && Step(Stage(n), StageEvent(n)) == Ok(Stage(n + 1))
  {
  }

  lemma StagesFollow(n: nat)
    requires n < 7
    ensures Refs(Stage(n)) && Step(Stage(n), StageEvent(n)) == Ok(Stage(n + 1))
  {
    if n == 5 { CancelledHourIsBooked(); } else if 1 <= n <= 3 { FirstHourIsPaidFor(n); }
  }

  lemma LastStageClashes()
    ensures Refs(Stage(7)) && !NoDoubleBooking(Stage(7))
  {
    assert Reserves(Stage(7), 0, Lesson(DAY, 60)) && Reserves(Stage(7), 1, Lesson(DAY, 60));
    assert Involves(Stage(7), 0, 100) && Involves(Stage(7), 1, 100);
  }

  /** The failing run, from the opening state: its end has two live classes at the same hour on the
      tutor's calendar. */
  lemma LateSlipRun()
    ensures Inv(Stage(0))
    ensures forall n :: 0 <= n < 7 ==> Refs(Stage(n)) && Step(Stage(n), StageEvent(n)) == Ok(Stage(n + 1))
    ensures Refs(Stage(7)) && !NoDoubleBooking(Stage(7))
  {
    forall n | 0 <= n < 7 ensures Refs(Stage(n)) && Step(Stage(n), StageEvent(n)) == Ok(Stage(n + 1)) {
      StagesFollow(n);
    }
    OpeningInv(0, Percentages(50.0, 10.0), Stage(0).tutors);
    LastStageClashes();
  }

  // ---- a second slip for a class that is paid ---------------------------------------------------------

  /** The same first steps; then the slip is approved, and the student registers it once more. */
  function PaidTwice(n: nat): Db
    requires n <= 6
  {
    if n <= 4 then Stage(n)
    else OneTutor([HourOf(1, Paid, Some(0)).(reportEnds := Some(DAY))],
                  [SLIP.(status := if n == 5 then HeldInEscrow else SlipUploaded)])
  }

  function PaidTwiceEvent(n: nat): Event
    requires n < 6
  {
    if n <= 3 then StageEvent(n) else if n == 4 then DoApproveSlip(0, 0) else DoUploadSlip(1, 0)
  }

  lemma PaidTwiceFollow(n: nat)
    requires n < 6
    ensures Refs(PaidTwice(n)) && Step(PaidTwice(n), PaidTwiceEvent(n)) == Ok(PaidTwice(n + 1))
  {
    if n <= 3 { StagesFollow(n); }
  }

  lemma {:induction false} PaidTwiceGood(n: nat)
    requires n <= 5
    ensures Inv(PaidTwice(n))
  {
    if n == 0 {
      OpeningInv(0, Percentages(50.0, 10.0), Stage(0).tutors);
    } else {
      PaidTwiceGood(n - 1);
      PaidTwiceFollow(n - 1);
      StepKeeps(PaidTwice(n - 1), PaidTwiceEvent(n - 1));
    }
  }

  /** The failing input of the registration: from the opening state five orderly steps lead to a paid class
      backed by escrow, and the second slip leaves it paid and unbacked. */
  lemma SecondSlipUnbacks()
    ensures Inv(PaidTwice(0)) && Inv(PaidTwice(5))
    ensures forall n :: 0 <= n < 6 ==> Refs(PaidTwice(n)) && Step(PaidTwice(n), PaidTwiceEvent(n)) == Ok(PaidTwice(n + 1))
    ensures PaidTwice(6).bookings[0].status == Paid && !Inv(PaidTwice(6))
  {
    PaidTwiceGood(0);
    PaidTwiceGood(5);
    forall n | 0 <= n < 6 ensures Refs(PaidTwice(n)) && Step(PaidTwice(n), PaidTwiceEvent(n)) == Ok(PaidTwice(n + 1)) {
      PaidTwiceFollow(n);
    }
    UploadKeepsInvIff(PaidTwice(5), 1, 0);
  }

  // ---- a report during a negotiation ------------------------------------------------------------------

  const ORIGINAL: Booking :=
    Booking(1, 0, PostponePending, 10 * DAY, 60, 300, Some(DAY), OneOnOne, Some(0), Some(0), None)
  const OTHER: Booking :=
    Booking(2, 0, Paid, 11 * DAY, 60, 300, Some(DAY), OneOnOne, None, Some(1), None)
  const FIRST: Request := Request(0, 1, Student, false, Negotiating, None, Some(Proposal(12 * DAY, 60)))
  const SECOND: Request := Request(1, 2, Student, false, Negotiating, None, None)
  const HELD: seq<Intent> := [Intent(0, 1, 300, HeldInEscrow), Intent(1, 2, 300, HeldInEscrow)]
  const FROZEN: seq<Intent> := HELD[0 := HELD[0].(status := Disputed)]

  /** Student 1 negotiates a later time; student 2 has a paid class with the same tutor; student 1
      reports, student 2 asks for the hour the report freed, and student 1's tutor agrees. */
  function Scene(n: nat): Db
    requires n <= 4
  {
    var reported := ORIGINAL.(status := BookingStatus.Reported);
    var asking := OTHER.(status := PostponePending, request := Some(1));
    var asked := SECOND.(proposed := Some(Proposal(10 * DAY, 60)));
    if n == 0 then OneTutor([ORIGINAL, OTHER], HELD).(requests := [FIRST])
    else if n == 1 then OneTutor([reported, OTHER], FROZEN).(requests := [FIRST])
    else if n == 2 then OneTutor([reported, asking], FROZEN).(requests := [FIRST, SECOND])
    else if n == 3 then OneTutor([reported, asking], FROZEN).(requests := [FIRST, asked])
    else OneTutor([reported.(status := Postponed, intent := None, movedTo := Some(2)), asking,
               Clone(reported, Proposal(12 * DAY, 60))],
              FROZEN[0 := FROZEN[0].(booking := 2)])
         .(requests := [FIRST.(status := Agreement, resolvedAs := Some(Outcome.Agreed)), asked])
  }

  function SceneEvent(n: nat): Event
    requires n < 4
  {
    if n == 0 then DoReport(1, 0, 0)
    else if n == 1 then DoInitiate(2, 1, 10, 0)
    else if n == 2 then DoPropose(2, 1, 10 * DAY, 60, 0)
    else DoConfirm(100, 0)
  }

  lemma SceneLinked()
    ensures Linked(Scene(0)) && Refs(Scene(0))
  {
    assert BookingShape(Scene(0), 0);
    assert BookingShape(Scene(0), 1);
    LinkedRefs(Scene(0));
  }

  lemma SceneMoney()
    requires Refs(Scene(0))
    ensures MoneyConserved(Scene(0)) && DefectsCounted(Scene(0))
  {
    assert Defects(Scene(0), 0) == {};
    forall i | 0 <= i < 2 ensures Conserved(Scene(0), i) {
      assert RowsFor(Scene(0).ledger, i) == 0 && Shares(Scene(0).ledger, i) == 0;
    }
  }

  lemma SceneCalendar()
    requires Refs(Scene(0))
    ensures NoDoubleBooking(Scene(0)) && Calm(Scene(0))
  {
    forall b: nat, x | Reserves(Scene(0), b, x)
      ensures b < 2 && (if b == 0 then x == Lesson(10 * DAY, 60) || x == Lesson(12 * DAY, 60)
                        else x == Lesson(11 * DAY, 60))
    {}
  }

  lemma SceneBegins()
    ensures Inv(Scene(0)) && Calm(Scene(0))
  {
    SceneLinked();
    SceneMoney();
    SceneCalendar();
  }

  lemma ReportAndRequest()
    ensures Refs(Scene(0)) && Step(Scene(0), SceneEvent(0)) == Ok(Scene(1))
    ensures Refs(Scene(1)) && Step(Scene(1), SceneEvent(1)) == Ok(Scene(2))
  {
  }

  lemma FreedHourIsAccepted()
    ensures Refs(Scene(2)) && Step(Scene(2), SceneEvent(2)) == Ok(Scene(3))
  {
  }

  lemma AgreedScene()
    ensures Refs(Scene(3)) && Agree(Scene(3), 0) == Scene(4)
  {
    assert Agree(Scene(3), 0).bookings == Scene(4).bookings;
    assert Agree(Scene(3), 0).requests == Scene(4).requests;
    assert Agree(Scene(3), 0).intents == Scene(4).intents;
  }

  lemma OriginalIsAgreed()
    ensures Refs(Scene(3)) && Step(Scene(3), SceneEvent(3)) == Ok(Scene(4))
  {
    AgreedScene();
    assert Confirm(Scene(3), 100, 0) == Ok(Agree(Scene(3), 0));
  }

  lemma SecondIsRefused()
    ensures Refs(Scene(4)) && Confirm(Scene(4), 100, 1) == Refused(Clash(ExistingBooking))
  {
  }

  lemma ScenesFollow(n: nat)
    requires n < 4
    ensures Refs(Scene(n)) && Step(Scene(n), SceneEvent(n)) == Ok(Scene(n + 1))
  {
    if n < 2 { ReportAndRequest(); } else if n == 2 { FreedHourIsAccepted(); } else { OriginalIsAgreed(); }
  }

  /** Without the report the promise of ProposalIsKept holds from this very state; with it, the slot
      that the guard accepted for student 2 is refused when the tutor confirms it. */
  lemma ReportBreaksAProposal()
    ensures Inv(Scene(0)) && Calm(Scene(0))
    ensures forall n :: 0 <= n < 4 ==> Refs(Scene(n)) && Step(Scene(n), SceneEvent(n)) == Ok(Scene(n + 1))
    ensures Refs(Scene(4)) && Confirm(Scene(4), 100, 1) == Refused(Clash(ExistingBooking))
  {
    SceneBegins();
    forall n | 0 <= n < 4 ensures Refs(Scene(n)) && Step(Scene(n), SceneEvent(n)) == Ok(Scene(n + 1)) {
      ScenesFollow(n);
    }
    SecondIsRefused();
  }
}
