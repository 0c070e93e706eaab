/** The anonymous bug-report limiter: a pruned in-memory window per address, against a limiter that
    never forgets. */
module RateLimit {
  import opened Basics

  /** The timestamps later than `bound`, in order. */
  function After(ts: seq<int>, bound: int): seq<int> {
    if ts == [] then []
    else After(ts[..|ts| - 1], bound) + (if ts[|ts| - 1] > bound then [ts[|ts| - 1]] else [])
  }

  function Of(m: map<string, seq<int>>, ip: string): seq<int> {
    if ip in m then m[ip] else []
  }

  /** The address requests are counted under. */
  function Key(ip: string): string {
    if ip == "" then "unknown" else ip
  }

  /** The decision, given the timestamps on record. */
  predicate Allows(ts: seq<int>, now: int, perHour: nat, perDay: nat) {
    |After(ts, now - HOUR)| < perHour && |After(ts, now - DAY)| < perDay
  }

  predicate Sorted(ts: seq<int>) {
    forall j, k :: 0 <= j < k < |ts| ==> ts[j] <= ts[k]
  }

  /** Any `max + 1` consecutive timestamps stretch over at least `width`. */
  predicate Spaced(ts: seq<int>, max: nat, width: int) {
    forall k :: max <= k < |ts| ==> ts[k] - ts[k - max] >= width
  }

  lemma AfterAppend(ts: seq<int>, t: int, bound: int)
    ensures After(ts + [t], bound) == After(ts, bound) + (if t > bound then [t] else [])
  {
    assert (ts + [t])[..|ts|] == ts;
  }

  lemma {:induction false} AfterAfter(ts: seq<int>, early: int, late: int)
    requires early <= late
    ensures After(After(ts, early), late) == After(ts, late)
  {
    if ts != [] {
      var front, t := ts[..|ts| - 1], ts[|ts| - 1];
      AfterAfter(front, early, late);
      if t > early {
        AfterAppend(After(front, early), t, late);
      } else {
        assert After(ts, early) == After(front, early);
      }
    }
  }

  /** In a sorted record, a late enough element brings all its successors into the window. */
  lemma {:induction false} LateTailCounts(ts: seq<int>, m: nat, bound: int)
    requires Sorted(ts) && 0 < m <= |ts| && ts[|ts| - m] > bound
    ensures |After(ts, bound)| >= m
  {
    var front := ts[..|ts| - 1];
    if m > 1 {
      assert front[|front| - (m - 1)] == ts[|ts| - m];
      LateTailCounts(front, m - 1, bound);
    }
  }

  /** One more accepted timestamp keeps the record spaced. */
  lemma AcceptedStaysSpaced(ts: seq<int>, now: int, max: nat, width: int)
    requires Sorted(ts) && Spaced(ts, max, width) && |After(ts, now - width)| < max
    ensures Spaced(ts + [now], max, width)
  {
    if |ts| >= max && ts[|ts| - max] > now - width {
      LateTailCounts(ts, max, now - width);
    }
  }

  // ---- any rolling window --------------------------------------------------------------------------

  /** The positions whose timestamps fall in the window of that width ending at `end`. */
  function Within(ts: seq<int>, width: int, end: int): set<int> {
    set k | 0 <= k < |ts| && end - width < ts[k] <= end
  }

  lemma {:induction false} FewInRange(s: set<int>, lo: int, n: nat)
    requires forall k :: k in s ==> lo <= k < lo + n
    ensures |s| <= n
  {
    if n == 0 {
      assert forall k :: k !in s;
    } else {
      FewInRange(s - {lo + n - 1}, lo, n - 1);
    }
  }

  lemma First(ts: seq<int>, width: int, end: int, start: int) returns (lo: int)
    requires start in Within(ts, width, end)
    ensures lo in Within(ts, width, end) && forall k :: k in Within(ts, width, end) ==> lo <= k
    decreases start
  {
    if k :| k in Within(ts, width, end) && k < start {
      lo := First(ts, width, end, k);
    } else {
      lo := start;
    }
  }

  /** A spaced, sorted record has at most `max` timestamps in any window of that width. */
  lemma AtMostPerWindow(ts: seq<int>, max: nat, width: int, end: int)
    requires Sorted(ts) && Spaced(ts, max, width) && width > 0
    ensures |Within(ts, width, end)| <= max
  {
    var s := Within(ts, width, end);
    if s != {} {
      var some :| some in s;
      var lo := First(ts, width, end, some);
      forall k | lo + max <= k < |ts| ensures ts[k] - ts[lo] >= width {
        assert ts[k - max] >= ts[lo];
      }
      FewInRange(s, lo, max);
    }
  }

  // ---- the limiter -----------------------------------------------------------------------------------

  function Pruned(m: map<string, seq<int>>, now: int): map<string, seq<int>> {
    map ip | ip in m && After(m[ip], now - DAY) != [] :: After(m[ip], now - DAY)
  }

  /** From instant `now` on, the two records cannot be told apart. */
  ghost predicate SameFrom(hits: map<string, seq<int>>, log: map<string, seq<int>>, now: int) {
    forall ip :: After(Of(hits, ip), now - DAY) == After(Of(log, ip), now - DAY)
  }

  lemma SameLater(hits: map<string, seq<int>>, log: map<string, seq<int>>, now: int, later: int)
    requires SameFrom(hits, log, now) && now <= later
    ensures SameFrom(hits, log, later)
  {
    forall ip ensures After(Of(hits, ip), later - DAY) == After(Of(log, ip), later - DAY) {
      AfterAfter(Of(hits, ip), now - DAY, later - DAY);
      AfterAfter(Of(log, ip), now - DAY, later - DAY);
    }
  }

  lemma PruningIsInvisible(hits: map<string, seq<int>>, log: map<string, seq<int>>, now: int)
    requires SameFrom(hits, log, now)
    ensures SameFrom(Pruned(hits, now), log, now)
  {
    forall ip ensures After(Of(Pruned(hits, now), ip), now - DAY) == After(Of(log, ip), now - DAY) {
      AfterAfter(Of(hits, ip), now - DAY, now - DAY);
      assert SameFrom(hits, log, now);
    }
  }

  predicate RecordOk(ts: seq<int>, clock: int, perHour: nat, perDay: nat) {
    && Sorted(ts)
    && (forall k :: 0 <= k < |ts| ==> ts[k] <= clock)
    && Spaced(ts, perHour, HOUR) && Spaced(ts, perDay, DAY)
  }

  /** For every address: in order, none in the future, and never more than the limits allow. */
  ghost predicate LogOk(log: map<string, seq<int>>, clock: int, perHour: nat, perDay: nat) {
    forall ip :: ip in log ==> RecordOk(log[ip], clock, perHour, perDay)
  }

  lemma LogGrows(log: map<string, seq<int>>, key: string, now: int, perHour: nat, perDay: nat)
    requires LogOk(log, now, perHour, perDay)
    requires Allows(Of(log, key), now, perHour, perDay)
    ensures LogOk(log[key := Of(log, key) + [now]], now, perHour, perDay)
  {
    var ts := Of(log, key);
    assert RecordOk(ts, now, perHour, perDay);
    AcceptedStaysSpaced(ts, now, perHour, HOUR);
    AcceptedStaysSpaced(ts, now, perDay, DAY);
  }

  /** Counting the hour inside the day's window gives the hour's count. */
  lemma RecentDecides(mine: seq<int>, full: seq<int>, now: int)
    requires After(mine, now - DAY) == After(full, now - DAY)
    ensures |After(After(mine, now - DAY), now - HOUR)| == |After(full, now - HOUR)|
  {
    AfterAfter(full, now - DAY, now - HOUR);
  }

  lemma KeepRecent(hits: map<string, seq<int>>, log: map<string, seq<int>>, key: string, recent: seq<int>, now: int)
    requires SameFrom(hits, log, now) && recent == After(Of(hits, key), now - DAY)
    ensures SameFrom(hits[key := recent], log, now)
  {
    AfterAfter(Of(hits, key), now - DAY, now - DAY);
    forall ip ensures After(Of(hits[key := recent], ip), now - DAY) == After(Of(log, ip), now - DAY) {
      assert After(Of(hits, ip), now - DAY) == After(Of(log, ip), now - DAY);
    }
  }

  lemma RecordBoth(hits: map<string, seq<int>>, log: map<string, seq<int>>, key: string, recent: seq<int>, now: int)
    requires SameFrom(hits[key := recent], log, now)
    ensures SameFrom(hits[key := recent + [now]], log[key := Of(log, key) + [now]], now)
  {
    AfterAppend(recent, now, now - DAY);
    AfterAppend(Of(log, key), now, now - DAY);
    var hits', log' := hits[key := recent + [now]], log[key := Of(log, key) + [now]];
    forall ip ensures After(Of(hits', ip), now - DAY) == After(Of(log', ip), now - DAY) {
      assert After(Of(hits[key := recent], ip), now - DAY) == After(Of(log, ip), now - DAY);
    }
  }

  class Limiter {
    const perHour: nat
    const perDay: nat
    var hits: map<string, seq<int>>
    /** Every acceptance ever, and the latest instant seen. */
    ghost var log: map<string, seq<int>>
    ghost var clock: int

    ghost predicate Valid()
      reads this
    {
      && SameFrom(hits, log, clock)
      && LogOk(log, clock, perHour, perDay)
    }

    constructor (perHour: nat, perDay: nat, ghost clock: int)
      ensures Valid() && log == map[] && this.clock == clock && this.perHour == perHour && this.perDay == perDay
    {
      this.perHour, this.perDay, hits, log, this.clock := perHour, perDay, map[], map[], clock;
    }

    /** Drop addresses without recent hits once the map is large. */
    method PruneAnonMap(now: int)
      requires SameFrom(hits, log, now)
      modifies this`hits
      ensures hits == if |old(hits)| < 5000 then old(hits) else Pruned(old(hits), now)
      ensures SameFrom(hits, log, now)
    {
      PruningIsInvisible(hits, log, now);
      if |hits| < 5000 { return; }
      var todo := hits.Keys;
      while todo != {}
        invariant todo <= old(hits).Keys
        invariant forall ip :: ip in todo ==> ip in hits && hits[ip] == old(hits)[ip]
        invariant forall ip :: ip !in todo ==> (ip in hits <==> ip in Pruned(old(hits), now))
        invariant forall ip :: ip !in todo && ip in hits ==> hits[ip] == Pruned(old(hits), now)[ip]
      {
        var ip :| ip in todo;
        todo := todo - {ip};
        var live := After(hits[ip], now - DAY);
        if |live| == 0 {
          hits := hits - {ip};
        } else {
          hits := hits[ip := live];
        }
      }
    }

    /** With a clock that does not run backwards, the answer is that of a limiter which remembers every
        acceptance, and both records grow by exactly the accepted requests. */
    method AssertCanFile(ip: string, now: int) returns (allowed: bool)
      requires Valid() && clock <= now
      modifies this
      ensures Valid() && clock == now
      ensures allowed == Allows(Of(old(log), Key(ip)), now, perHour, perDay)
      ensures log == if allowed then old(log)[Key(ip) := Of(old(log), Key(ip)) + [now]] else old(log)
    {
      var key := Key(ip);
      SameLater(hits, log, clock, now);
      clock := now;
      var recent := After(if key in hits then hits[key] else [], now - DAY);
      var inHour := |After(recent, now - HOUR)|;
      RecentDecides(Of(hits, key), Of(log, key), now);
      KeepRecent(hits, log, key, recent, now);
      if inHour >= perHour || |recent| >= perDay {
        hits := hits[key := recent];
        return false;
      }
      LogGrows(log, key, now, perHour, perDay);
      RecordBoth(hits, log, key, recent, now);
      recent := recent + [now];
      hits := hits[key := recent];
      log := log[key := Of(log, key) + [now]];
      PruneAnonMap(now);
      return true;
    }
  }

  /** What the kept record means: no address is ever accepted more often than the limits allow, in
      whatever hour or day one looks at. */
  lemma RollingLimits(log: map<string, seq<int>>, clock: int, perHour: nat, perDay: nat, ip: string, end: int)
    requires LogOk(log, clock, perHour, perDay)
    ensures |Within(Of(log, ip), HOUR, end)| <= perHour
    ensures |Within(Of(log, ip), DAY, end)| <= perDay
  {
    if ip in log {
      assert RecordOk(log[ip], clock, perHour, perDay);
    }
    AtMostPerWindow(Of(log, ip), perHour, HOUR, end);
    AtMostPerWindow(Of(log, ip), perDay, DAY, end);
  }

  // ---- when a request is accepted ------------------------------------------------------------------

  lemma {:induction false} RecentAreWithin(ts: seq<int>, width: int, now: int)
    requires forall k :: 0 <= k < |ts| ==> ts[k] <= now
    ensures |After(ts, now - width)| == |Within(ts, width, now)|
  {
    if ts != [] {
      var front, last := ts[..|ts| - 1], |ts| - 1;
      RecentAreWithin(front, width, now);
      assert Within(ts, width, now)
             == Within(front, width, now) + (if ts[last] > now - width then {last} else {});
    } else {
      assert Within(ts, width, now) == {};
    }
  }

  /** A request is accepted if and only if the address has room left both in the hour and in the day that end
      now: the limits refuse nobody too early. */
  lemma AcceptedIff(log: map<string, seq<int>>, ip: string, now: int, perHour: nat, perDay: nat)
    requires LogOk(log, now, perHour, perDay)
    ensures Allows(Of(log, Key(ip)), now, perHour, perDay)
            <==> |Within(Of(log, Key(ip)), HOUR, now)| < perHour && |Within(Of(log, Key(ip)), DAY, now)| < perDay
  {
    var ts := Of(log, Key(ip));
    assert Key(ip) in log ==> RecordOk(log[Key(ip)], now, perHour, perDay);
    RecentAreWithin(ts, HOUR, now);
    RecentAreWithin(ts, DAY, now);
  }

  /** Two requests are counted together exactly if they come from one address, or from none that is known. */
  lemma CountedTogether(a: string, b: string)
    ensures Key(a) == Key(b) <==> a == b || (a in ["", "unknown"] && b in ["", "unknown"])
  {
  }
}
