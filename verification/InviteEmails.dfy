/** The list of addresses a host types, cleaned before any account is looked up. `fold` stands for
    lower-casing and trimming; nothing here depends on what it does. */
module InviteEmails {
  datatype Cleaning = Clean(emails: seq<string>) | SelfInvite | AlreadySeated(email: string)

  /** The distinct non-blank folded addresses, in the order in which each first appears. */
  function FirstsOf(raw: seq<string>, fold: string -> string): seq<string> {
    if raw == [] then []
    else
      var before, email := FirstsOf(raw[..|raw| - 1], fold), fold(raw[|raw| - 1]);
      if email == "" || email in before then before else before + [email]
  }

  predicate Offends(entry: string, fold: string -> string, host: string, present: set<string>) {
    fold(entry) != "" && (fold(entry) == fold(host) || fold(entry) in present)
  }

  /** The loop: the first offending entry decides the error, otherwise the cleaned list comes back. */
  method NormalizeInviteEmails(raw: seq<string>, fold: string -> string, hostEmail: string, present: set<string>)
    returns (r: Cleaning)
    ensures r.Clean? <==> forall k :: 0 <= k < |raw| ==> !Offends(raw[k], fold, hostEmail, present)
    ensures r.Clean? ==> r.emails == FirstsOf(raw, fold)
    ensures !r.Clean? ==>
              exists k :: 0 <= k < |raw| && Offends(raw[k], fold, hostEmail, present)
                          && (forall j :: 0 <= j < k ==> !Offends(raw[j], fold, hostEmail, present))
                          && r == if fold(raw[k]) == fold(hostEmail) then SelfInvite else AlreadySeated(fold(raw[k]))
  {
    var seen: set<string>, out: seq<string> := {}, [];
    var host := fold(hostEmail);
    for n := 0 to |raw|
      invariant out == FirstsOf(raw[..n], fold)
      invariant forall email :: email in seen <==> email in out
      invariant forall k :: 0 <= k < n ==> !Offends(raw[k], fold, hostEmail, present)
    {
      assert raw[..n + 1][..n] == raw[..n];
      var email := fold(raw[n]);
      if email != "" {
        if email == host { assert Offends(raw[n], fold, hostEmail, present); return SelfInvite; }
        if email in present { assert Offends(raw[n], fold, hostEmail, present); return AlreadySeated(email); }
        if email !in seen {
          seen, out := seen + {email}, out + [email];
        }
      }
    }
    assert raw[..|raw|] == raw;
    return Clean(out);
  }

  predicate Distinct(emails: seq<string>) {
    forall i, j :: 0 <= i < j < |emails| ==> emails[i] != emails[j]
  }

  /** Nothing blank, nothing twice, and exactly what was typed. */
  lemma {:induction false} FirstsExact(raw: seq<string>, fold: string -> string)
    ensures Distinct(FirstsOf(raw, fold)) && "" !in FirstsOf(raw, fold)
    ensures forall email :: email in FirstsOf(raw, fold) <==> email != "" && exists k :: 0 <= k < |raw| && fold(raw[k]) == email
  {
    if raw != [] {
      var front := raw[..|raw| - 1];
      FirstsExact(front, fold);
      forall email
        ensures email in FirstsOf(raw, fold) <==> email != "" && exists k :: 0 <= k < |raw| && fold(raw[k]) == email
      {
        if k :| 0 <= k < |raw| && fold(raw[k]) == email {
          if k < |front| { assert fold(front[k]) == email; }
        }
        if email in FirstsOf(front, fold) {
          var k :| 0 <= k < |front| && fold(front[k]) == email;
          assert fold(raw[k]) == email;
        }
      }
    }
  }

  /** Cleaning a clean list changes nothing, so the host may send the answer back. */
  lemma {:induction false} CleaningTwiceIsOnce(emails: seq<string>, fold: string -> string)
    requires Distinct(emails) && "" !in emails && forall k :: 0 <= k < |emails| ==> fold(emails[k]) == emails[k]
    ensures FirstsOf(emails, fold) == emails
  {
    if emails != [] {
      var front, last := emails[..|emails| - 1], emails[|emails| - 1];
      CleaningTwiceIsOnce(front, fold);
      assert emails == front + [last];
    }
  }

  /** Listing an address again, after the rest, never changes the list. */
  lemma RepeatsAreSkipped(raw: seq<string>, entry: string, fold: string -> string)
    requires exists k :: 0 <= k < |raw| && fold(raw[k]) == fold(entry)
    ensures FirstsOf(raw + [entry], fold) == FirstsOf(raw, fold)
  {
    FirstsExact(raw, fold);
    assert (raw + [entry])[..|raw|] == raw;
  }
}
