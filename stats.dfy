/** Play statistics: one record per session, keyed by its timestamp, and an
    "overall" record with the running totals. The browser database is a
    value here: a flag saying whether it was opened, the overall record (if
    any) and the session records. */
module Stats {
  import opened Wrappers

  /** A stored session: the session data plus the time it was recorded. */
  datatype Session = Session(timestamp: int, score: int, wpm: int, accuracy: int, level: string, duration: int)

  /** What the game hands over at the end of a session. */
  datatype Entry = Entry(score: int, wpm: int, accuracy: int, level: string, duration: int)

  datatype Overall = Overall(sessions: int, bestScore: int, totalWpm: int, sessionCount: int, lastPlayed: int)

  /** What `getStats` reports. */
  datatype Summary = Summary(sessions: int, bestScore: int, averageWpm: real)

  datatype Store = Store(open: bool, overall: Option<Overall>, sessions: seq<Session>)

  /** The overall record assumed when none is stored yet. */
  const Fresh := Overall(0, 0, 0, 0, 0)

  function Max(a: int, b: int): int {
    if a >= b then a else b
  }

  function Stamp(e: Entry, timestamp: int): (s: Session)
    ensures s.timestamp == timestamp && s.score == e.score && s.wpm == e.wpm
  {
    Session(timestamp, e.score, e.wpm, e.accuracy, e.level, e.duration)
  }

  /** Whether a session with this timestamp (the store's key) is stored. */
  predicate Stamped(ss: seq<Session>, timestamp: int) {
    exists i :: 0 <= i < |ss| && ss[i].timestamp == timestamp
  }

  // -------------------------------------------------------------- record

  /** `recordSession`: nothing without a database; adding a session under a
      timestamp that is already a key fails, and then nothing is written;
      otherwise the session is added and the overall record (zeros when
      absent) counts it. */
  function Record(t: Store, e: Entry, timestamp: int, now: int): Store {
    if !t.open || Stamped(t.sessions, timestamp) then t
    else
      var o := t.overall.GetOr(Fresh);
      t.(sessions := t.sessions + [Stamp(e, timestamp)],
         overall := Some(Overall(o.sessions + 1, Max(o.bestScore, e.score), o.totalWpm + e.wpm,
                                 o.sessionCount + 1, now)))
  }

  /** Sum of the recorded speeds. */
  function WpmSum(ss: seq<Session>): int
    decreases |ss|
  {
    if ss == [] then 0 else WpmSum(ss[..|ss| - 1]) + ss[|ss| - 1].wpm
  }

  /** The best recorded score, and 0 for none. */
  function Best(ss: seq<Session>): int
    decreases |ss|
  {
    if ss == [] then 0 else Max(Best(ss[..|ss| - 1]), ss[|ss| - 1].score)
  }

  /** Every stored timestamp is a distinct key. */
  ghost predicate Distinct(ss: seq<Session>) {
    forall i, j :: 0 <= i < j < |ss| ==> ss[i].timestamp != ss[j].timestamp
  }

  /** The overall record agrees with the stored sessions: it is absent only
      while there are none, and otherwise it counts them, sums their speeds
      and holds the best of their scores. */
  ghost predicate Coherent(t: Store) {
    Distinct(t.sessions) &&
    match t.overall
    case None => t.sessions == []
    case Some(o) =>
      o.sessions == o.sessionCount == |t.sessions| &&
      o.totalWpm == WpmSum(t.sessions) && o.bestScore == Best(t.sessions)
  }

  /** The best score is at least every recorded score, and is one of them
      when it is not 0. */
  lemma {:induction false} BestBounds(ss: seq<Session>)
    ensures forall i :: 0 <= i < |ss| ==> ss[i].score <= Best(ss)
    ensures Best(ss) == 0 || exists i :: 0 <= i < |ss| && ss[i].score == Best(ss)
    decreases |ss|
  {
    if ss != [] {
      var init := ss[..|ss| - 1];
      BestBounds(init);
      assert forall i :: 0 <= i < |init| ==> ss[i] == init[i];
    }
  }

  /** A recorded session is either added with its clock reading, or (without
      a database, or under a taken timestamp) nothing changes. */
  lemma RecordEffect(t: Store, e: Entry, timestamp: int, now: int)
    ensures var r := Record(t, e, timestamp, now);
      r.open == t.open &&
      if t.open && !Stamped(t.sessions, timestamp) then
        r.sessions == t.sessions + [Stamp(e, timestamp)] &&
        r.overall.Some? && r.overall.value.lastPlayed == now &&
        r.overall.value.sessionCount == t.overall.GetOr(Fresh).sessionCount + 1 &&
        r.overall.value.bestScore >= e.score &&
        r.overall.value.bestScore >= t.overall.GetOr(Fresh).bestScore
      else r == t
  {
  }

  /** Recording keeps the overall record in step with the sessions. */
  lemma RecordCoherent(t: Store, e: Entry, timestamp: int, now: int)
    requires Coherent(t)
    ensures Coherent(Record(t, e, timestamp, now))
  {
    var r := Record(t, e, timestamp, now);
    if t.open && !Stamped(t.sessions, timestamp) {
      var ss := r.sessions;
      assert ss[..|ss| - 1] == t.sessions;
      forall i, j | 0 <= i < j < |ss|
        ensures ss[i].timestamp != ss[j].timestamp
      {
        if j == |ss| - 1 {
          assert t.sessions[i].timestamp != timestamp;
        }
      }
    }
  }

  /** An empty store, or one never opened, is coherent. */
  lemma EmptyCoherent(open: bool)
    ensures Coherent(Store(open, None, []))
  {
  }

  // ------------------------------------------------------------- summary

  /** `getStats`: zeros without a database or an overall record; otherwise
      the session count, the best score and the mean speed (0 before the
      first counted session). */
  function Summarize(t: Store): Summary {
    if !t.open || t.overall.None? then Summary(0, 0, 0.0)
    else
      var o := t.overall.value;
      Summary(o.sessions, o.bestScore,
              if o.sessionCount > 0 then o.totalWpm as real / o.sessionCount as real else 0.0)
  }

  /** On a coherent store the summary is the number of sessions, the best
      of their scores and the mean of their speeds. */
  lemma SummaryMeans(t: Store)
    requires Coherent(t) && t.open
    ensures var s := Summarize(t);
      s.sessions == |t.sessions| &&
      (forall i :: 0 <= i < |t.sessions| ==> t.sessions[i].score <= s.bestScore) &&
      (s.bestScore == 0 || exists i :: 0 <= i < |t.sessions| && t.sessions[i].score == s.bestScore) &&
      s.averageWpm * |t.sessions| as real == WpmSum(t.sessions) as real
  {
    BestBounds(t.sessions);
  }

  // ---------------------------------------------------- recent sessions

  /** Sessions, newest first. */
  ghost predicate Descending(ss: seq<Session>) {
    forall i, j :: 0 <= i < j < |ss| ==> ss[i].timestamp >= ss[j].timestamp
  }

  /** Put `s` into a newest-first list. */
  function Insert(s: Session, ss: seq<Session>): (r: seq<Session>)
    ensures |r| == |ss| + 1
    decreases |ss|
  {
    if ss == [] || ss[0].timestamp <= s.timestamp then [s] + ss
    else [ss[0]] + Insert(s, ss[1..])
  }

  /** The sessions sorted newest first (by descending timestamp). */
  function Newest(ss: seq<Session>): (r: seq<Session>)
    ensures |r| == |ss|
    decreases |ss|
  {
    if ss == [] then [] else Insert(ss[0], Newest(ss[1..]))
  }

  /** Inserting adds exactly the one session. */
  lemma {:induction false} InsertMultiset(s: Session, ss: seq<Session>)
    ensures multiset(Insert(s, ss)) == multiset(ss) + multiset{s}
    decreases |ss|
  {
    if ss != [] && ss[0].timestamp > s.timestamp {
      InsertMultiset(s, ss[1..]);
      assert ss == [ss[0]] + ss[1..];
    }
  }

  /** A session no older than any of a newest-first list can go in front. */
  lemma DescendingCons(h: Session, rest: seq<Session>)
    requires Descending(rest)
    requires forall j :: 0 <= j < |rest| ==> rest[j].timestamp <= h.timestamp
    ensures Descending([h] + rest)
  {
  }

  /** Inserting into a newest-first list keeps it newest first. */
  lemma {:induction false} InsertSorted(s: Session, ss: seq<Session>)
    requires Descending(ss)
    ensures Descending(Insert(s, ss))
    decreases |ss|
  {
    if ss == [] || ss[0].timestamp <= s.timestamp {
      DescendingCons(s, ss);
    } else {
      var rest := Insert(s, ss[1..]);
      InsertSorted(s, ss[1..]);
      InsertMultiset(s, ss[1..]);
      forall j | 0 <= j < |rest|
        ensures rest[j].timestamp <= ss[0].timestamp
      {
        assert rest[j] in multiset(rest);
        assert rest[j] == s || rest[j] in multiset(ss[1..]);
      }
      DescendingCons(ss[0], rest);
    }
  }

  /** The sorted list is newest first and holds exactly the stored sessions. */
  lemma {:induction false} NewestSorted(ss: seq<Session>)
    ensures Descending(Newest(ss))
    ensures multiset(Newest(ss)) == multiset(ss)
    decreases |ss|
  {
    if ss != [] {
      NewestSorted(ss[1..]);
      InsertSorted(ss[0], Newest(ss[1..]));
      InsertMultiset(ss[0], Newest(ss[1..]));
      assert ss == [ss[0]] + ss[1..];
    }
  }

  /** The first of two newest-first lists with the same sessions is the
      same session, when keys are distinct. */
  lemma SameHead(a: seq<Session>, b: seq<Session>)
    requires Descending(a) && Descending(b) && Distinct(a)
    requires multiset(a) == multiset(b) && a != []
    ensures b != [] && a[0] == b[0]
  {
    assert a[0] in multiset(b);
    assert b != [];
    assert b[0] in multiset(a);
    var j :| 0 <= j < |b| && b[j] == a[0];
    var i :| 0 <= i < |a| && a[i] == b[0];
    assert a[0].timestamp >= b[0].timestamp >= a[0].timestamp;
  }

  lemma DistinctTail(a: seq<Session>)
    requires Distinct(a) && a != []
    ensures Distinct(a[1..])
  {
    forall p, q | 0 <= p < q < |a| - 1
      ensures a[1..][p].timestamp != a[1..][q].timestamp
    {
      assert a[1..][p] == a[p + 1] && a[1..][q] == a[q + 1];
    }
  }

  lemma DescendingTail(a: seq<Session>)
    requires Descending(a) && a != []
    ensures Descending(a[1..])
  {
    forall p, q | 0 <= p < q < |a| - 1
      ensures a[1..][p].timestamp >= a[1..][q].timestamp
    {
      assert a[1..][p] == a[p + 1] && a[1..][q] == a[q + 1];
    }
  }

  lemma TailMultiset(a: seq<Session>)
    requires a != []
    ensures multiset(a[1..]) == multiset(a) - multiset{a[0]}
  {
    assert a == [a[0]] + a[1..];
  }

  /** Keys are distinct, so there is only one newest-first order: any sort
      of the stored sessions by descending timestamp gives this list. */
  lemma {:induction false} SortedUnique(a: seq<Session>, b: seq<Session>)
    requires Descending(a) && Descending(b) && Distinct(a)
    requires multiset(a) == multiset(b)
    ensures a == b
    decreases |a|
  {
    if a == [] {
      assert |b| == |multiset(b)| == 0;
    } else {
      SameHead(a, b);
      TailMultiset(a);
      TailMultiset(b);
      DistinctTail(a);
      DescendingTail(a);
      DescendingTail(b);
      SortedUnique(a[1..], b[1..]);
      assert a == [a[0]] + a[1..] && b == [b[0]] + b[1..];
    }
  }

  /** Whatever sort routine orders the stored sessions newest first, the
      result is `Newest`: its order does not depend on sort stability. */
  lemma AnySortIsNewest(ss: seq<Session>, l: seq<Session>)
    requires Descending(l) && Distinct(l) && multiset(l) == multiset(ss)
    ensures l == Newest(ss)
  {
    NewestSorted(ss);
    SortedUnique(l, Newest(ss));
  }

  /** Where `slice(0, limit)` ends on a list of length n: a negative limit
      counts from the end. */
  function SliceEnd(n: nat, limit: int): (e: nat)
    ensures e <= n
    ensures limit >= 0 ==> e == if limit <= n then limit else n
    ensures limit < 0 ==> e + (if -limit <= n then -limit else n) == n
  {
    if limit >= 0 then (if limit <= n then limit else n)
    else if n + limit >= 0 then n + limit else 0
  }

  /** The answer of `getRecentSessions(limit)` on an open store. */
  function Recent(ss: seq<Session>, limit: int): seq<Session> {
    Newest(ss)[..SliceEnd(|ss|, limit)]
  }

  /** The recent sessions are newest first, are stored sessions, and no
      stored session left out is newer than one returned. */
  lemma RecentProperties(ss: seq<Session>, limit: int)
    ensures var r := Recent(ss, limit);
      |r| == SliceEnd(|ss|, limit) && Descending(r) &&
      multiset(r) <= multiset(ss) &&
      forall i, j :: 0 <= i < |r| <= j < |ss| ==> Newest(ss)[j].timestamp <= r[i].timestamp
  {
    var l := Newest(ss);
    var e := SliceEnd(|ss|, limit);
    NewestSorted(ss);
    PrefixDescending(l, e);
    PrefixMultiset(l, e);
  }

  /** A prefix of a newest-first list is newest first, and none of the
      rest is newer than any of it. */
  lemma PrefixDescending(l: seq<Session>, e: nat)
    requires Descending(l) && e <= |l|
    ensures Descending(l[..e])
    ensures forall i, j :: 0 <= i < e <= j < |l| ==> l[j].timestamp <= l[..e][i].timestamp
  {
  }

  lemma PrefixMultiset(l: seq<Session>, e: nat)
    requires e <= |l|
    ensures multiset(l[..e]) <= multiset(l)
  {
    assert l == l[..e] + l[e..];
  }

  // ------------------------------------------------------------- manager

  class StatsManager {
    /** Whether the database has been opened. */
    var open: bool
    var overall: Option<Overall>
    var sessions: seq<Session>

    function Snapshot(): Store
      reads this
    {
      Store(open, overall, sessions)
    }

    constructor ()
      ensures Snapshot() == Store(false, None, [])
    {
      open := false;
      overall := None;
      sessions := [];
    }

    /** Open the database, which holds `stored` and `saved`. */
    method Init(stored: Option<Overall>, saved: seq<Session>)
      modifies this
      ensures Snapshot() == Store(true, stored, saved)
    {
      open := true;
      overall := stored;
      sessions := saved;
    }

    method GetStats() returns (s: Summary)
      ensures !open || overall.None? ==> s == Summary(0, 0, 0.0)
      ensures open && overall.Some? ==>
        s.sessions == overall.value.sessions && s.bestScore == overall.value.bestScore &&
        (overall.value.sessionCount > 0 ==>
           s.averageWpm * overall.value.sessionCount as real == overall.value.totalWpm as real) &&
        (overall.value.sessionCount <= 0 ==> s.averageWpm == 0.0)
      ensures s == Summarize(Snapshot())
    {
      if !open {
        return Summary(0, 0, 0.0);
      }
      match overall {
        case None =>
          return Summary(0, 0, 0.0);
        case Some(o) =>
          var average := if o.sessionCount > 0 then o.totalWpm as real / o.sessionCount as real else 0.0;
          return Summary(o.sessions, o.bestScore, average);
      }
    }

    /** Store a session under `timestamp`, then update the totals at time
        `now`; the answer is false when nothing was written. */
    method RecordSession(e: Entry, timestamp: int, now: int) returns (ok: bool)
      modifies this
      ensures ok == (old(open) && !Stamped(old(sessions), timestamp))
      ensures Snapshot() == Record(old(Snapshot()), e, timestamp, now)
    {
      if !open {
        return false;
      }
      if Stamped(sessions, timestamp) {
        return false;
      }
      sessions := sessions + [Stamp(e, timestamp)];
      var o := overall.GetOr(Fresh);
      o := o.(sessions := o.sessions + 1);
      o := o.(bestScore := Max(o.bestScore, e.score));
      o := o.(totalWpm := o.totalWpm + e.wpm);
      o := o.(sessionCount := o.sessionCount + 1);
      o := o.(lastPlayed := now);
      overall := Some(o);
      return true;
    }

    /** The `limit` most recent sessions, newest first. */
    method GetRecentSessions(limit: int) returns (r: seq<Session>)
      ensures !open ==> r == []
      ensures open ==> |r| == SliceEnd(|sessions|, limit) && Descending(r) && multiset(r) <= multiset(sessions)
      ensures open ==> forall i, j :: 0 <= i < |r| <= j < |sessions| ==>
        Newest(sessions)[j].timestamp <= r[i].timestamp
    {
      if !open {
        return [];
      }
      r := Recent(sessions, limit);
      RecentProperties(sessions, limit);
    }
  }
}
