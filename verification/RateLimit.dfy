/** The fixed-window limiter of backend/app/rate_limit.py, and how many requests it admits in a span of time. */
module RateLimit {
  import opened Rows

  /** Sixty seconds, in the milliseconds in which Redis keeps expiry times. */
  const WINDOW: int := 60_000

  datatype Key = PrincipalKey(bucket: string, principal: string) | SessionKey(bucket: string, principal: string, session: nat)

  /** A counter and the moment it was created; it expires a window later. */
  datatype Entry = Entry(start: int, count: nat)

  /** How the call of the script went: answered, run without an answer, or not run at all. */
  datatype Reach = Answered | Unacknowledged | Unreachable

  /** One request; `edge` says whether a counter whose time is just up still exists. */
  datatype Request = Request(
    bucket: string, principal: string, session: Option<nat>, time: int, edge: bool, first: Reach, second: Reach)

  datatype Verdict = Admitted | TooMany | Unavailable

  function Lookup(entries: map<Key, Entry>, key: Key): Option<Entry> {
    if key in entries then Some(entries[key]) else None
  }

  /** INCR, and EXPIRE when the counter is new. */
  function Increment(e: Option<Entry>, now: int, edge: bool): Entry {
    if e.Some? && (now < e.value.start + WINDOW || (now == e.value.start + WINDOW && edge))
    then Entry(e.value.start, e.value.count + 1)
    else Entry(now, 1)
  }

  function Touch(entries: map<Key, Entry>, key: Key, r: Request, reach: Reach): map<Key, Entry> {
    if reach == Unreachable then entries else entries[key := Increment(Lookup(entries, key), r.time, r.edge)]
  }

  /** `enforce_rate_limit`, after the script has run. */
  function Judge(entries: map<Key, Entry>, key: Key, limit: nat, reach: Reach): Verdict {
    if reach != Answered || key !in entries then Unavailable
    else if entries[key].count > limit then TooMany
    else Admitted
  }

  function FirstKey(r: Request): Key {
    PrincipalKey(r.bucket, r.principal)
  }

  function SecondKey(r: Request): Key
    requires r.session.Some?
  {
    SessionKey(r.bucket, r.principal, r.session.value)
  }

  /** The counters after a request: the session's counter is not touched when the principal's check fails. */
  function Handled(entries: map<Key, Entry>, limit: string -> nat, r: Request): map<Key, Entry> {
    var once := Touch(entries, FirstKey(r), r, r.first);
    if r.session.None? || Judge(once, FirstKey(r), limit(r.bucket), r.first) != Admitted then once
    else Touch(once, SecondKey(r), r, r.second)
  }

  function VerdictOn(entries: map<Key, Entry>, limit: string -> nat, r: Request): Verdict {
    var once := Touch(entries, FirstKey(r), r, r.first);
    var first := Judge(once, FirstKey(r), limit(r.bucket), r.first);
    if r.session.None? || first != Admitted then first
    else Judge(Touch(once, SecondKey(r), r, r.second), SecondKey(r), limit(r.bucket), r.second)
  }

  function After(limit: string -> nat, requests: seq<Request>): map<Key, Entry> {
    if requests == [] then map[]
    else Handled(After(limit, requests[..|requests| - 1]), limit, requests[|requests| - 1])
  }

  predicate Counts(key: Key, r: Request) {
    key == FirstKey(r) || (r.session.Some? && key == SecondKey(r))
  }

  /** How many requests under the key were admitted at times from `a` up to, but not including, `b`. */
  function AdmittedIn(limit: string -> nat, requests: seq<Request>, key: Key, a: int, b: int): nat {
    if requests == [] then 0
    else
      var n := |requests| - 1;
      var r := requests[n];
      AdmittedIn(limit, requests[..n], key, a, b)
      + if a <= r.time < b && Counts(key, r) && VerdictOn(After(limit, requests[..n]), limit, r) == Admitted then 1 else 0
  }

  predicate InOrder(requests: seq<Request>) {
    forall i, j :: 0 <= i < j < |requests| ==> requests[i].time <= requests[j].time
  }

  // ---------- The bound ----------

  function Min(a: int, b: int): int {
    if a < b then a else b
  }

  function Whole(a: int, start: int): int
    requires a <= start
  {
    (start - a) / WINDOW
  }

  /** What `admitted` requests since `a` can be at most, by where the current window of the key began: a window that
    began before `a` has spent its first request before `a`. */
  predicate Within(e: Option<Entry>, limit: nat, a: int, admitted: nat) {
    if limit == 0 || e.None? then admitted == 0
    else if e.value.start < a then admitted == 0 || admitted <= Min(e.value.count, limit) - 1
    else admitted <= limit - 1 + limit * Whole(a, e.value.start) + Min(e.value.count, limit)
  }

  lemma Grows(limit: nat, f: int, g: int)
    requires f + 1 <= g
    ensures limit * f + limit <= limit * g
  {
    assert limit * (f + 1) == limit * f + limit;
    assert limit * (g - (f + 1)) >= 0;
  }

  /** One increment of the key's counter, by a request that is admitted or not. */
  lemma IncrementWithin(e: Option<Entry>, limit: nat, a: int, now: int, edge: bool, admitted: nat, more: bool)
    requires Within(e, limit, a, admitted) && (e.Some? ==> e.value.start <= now && e.value.count >= 1)
    requires now < a ==> admitted == 0 && !more
    requires more ==> Increment(e, now, edge).count <= limit
    ensures Within(Some(Increment(e, now, edge)), limit, a, admitted + if more then 1 else 0)
  {
    var e' := Increment(e, now, edge);
    if limit > 0 && a <= now && e'.start == now && e.Some? && e' != Entry(e.value.start, e.value.count + 1) {
      if e.value.start >= a {
        Grows(limit, Whole(a, e.value.start), Whole(a, now));
      } else {
        NonNegative(limit, Whole(a, now));
      }
    } else if limit > 0 && a <= now && e.None? {
      NonNegative(limit, Whole(a, now));
    }
  }

  lemma NonNegative(limit: nat, f: int)
    requires f >= 0
    ensures limit * f >= 0
  {}

  /** A request leaves a counter alone or increments it, and is admitted under a key only if it incremented that
    key's counter to no more than the limit. */
  lemma HandledKey(entries: map<Key, Entry>, limit: string -> nat, r: Request, key: Key)
    ensures var e, e' := Lookup(entries, key), Lookup(Handled(entries, limit, r), key);
            && (e' == e || e' == Some(Increment(e, r.time, r.edge)))
            && (Counts(key, r) && VerdictOn(entries, limit, r) == Admitted ==>
                  e' == Some(Increment(e, r.time, r.edge)) && e'.value.count <= limit(key.bucket))
  {}

  predicate AllBefore(requests: seq<Request>, b: int) {
    forall i :: 0 <= i < |requests| ==> requests[i].time < b
  }

  lemma {:induction false} WithinRun(limit: string -> nat, requests: seq<Request>, key: Key, a: int, b: int)
    requires InOrder(requests) && AllBefore(requests, b)
    ensures var e := Lookup(After(limit, requests), key);
            && Within(e, limit(key.bucket), a, AdmittedIn(limit, requests, key, a, b))
            && (e.Some? ==> e.value.count >= 1 && requests != [] && e.value.start <= requests[|requests| - 1].time)
    ensures AllBefore(requests, a) ==> AdmittedIn(limit, requests, key, a, b) == 0
  {
    if requests != [] {
      var n := |requests| - 1;
      var before, r := requests[..n], requests[n];
      WithinRun(limit, before, key, a, b);
      HandledKey(After(limit, before), limit, r, key);
      var e := Lookup(After(limit, before), key);
      if Lookup(After(limit, requests), key) != e || Counts(key, r) {
        if r.time < a {
          assert AllBefore(before, a);
        }
        var more := a <= r.time < b && Counts(key, r) && VerdictOn(After(limit, before), limit, r) == Admitted;
        if Lookup(After(limit, requests), key) == Some(Increment(e, r.time, r.edge)) {
          IncrementWithin(e, limit(key.bucket), a, r.time, r.edge, AdmittedIn(limit, before, key, a, b), more);
        }
      }
    }
  }

  /** One less than k + 1 windows' worth of requests, and none in no time. */
  function Cap(limit: nat, k: nat): nat {
    if limit == 0 || k == 0 then 0 else k * limit + limit - 1
  }

  lemma WholeBelow(a: int, start: int, k: nat, limit: nat)
    requires a <= start < a + k * WINDOW
    ensures limit * Whole(a, start) + limit <= k * limit
  {
    assert Whole(a, start) + 1 <= k;
    Grows(limit, Whole(a, start), k);
    assert limit * k == k * limit;
  }

  lemma WithinCap(e: Option<Entry>, limit: nat, a: int, k: nat, admitted: nat)
    requires Within(e, limit, a, admitted) && (e.Some? ==> e.value.start < a + k * WINDOW) && k >= 1
    ensures admitted <= Cap(limit, k)
  {
    NonNegative(limit, k);
    assert limit * k == k * limit;
    if limit > 0 && e.Some? && e.value.start >= a {
      WholeBelow(a, e.value.start, k, limit);
    }
  }

  lemma {:induction false} EmptySpan(limit: string -> nat, requests: seq<Request>, key: Key, a: int)
    ensures AdmittedIn(limit, requests, key, a, a) == 0
  {
    if requests != [] {
      EmptySpan(limit, requests[..|requests| - 1], key, a);
    }
  }

  /** Any span of k windows admits at most (k + 1) * limit - 1 requests of one key, whatever the rest of the traffic. */
  lemma {:induction false} SpanBound(limit: string -> nat, requests: seq<Request>, key: Key, a: int, k: nat)
    requires InOrder(requests)
    ensures AdmittedIn(limit, requests, key, a, a + k * WINDOW) <= Cap(limit(key.bucket), k)
  {
    var b := a + k * WINDOW;
    if k == 0 {
      EmptySpan(limit, requests, key, a);
    } else if requests != [] {
      var n := |requests| - 1;
      if requests[n].time < b {
        assert AllBefore(requests, b);
        WithinRun(limit, requests, key, a, b);
        WithinCap(Lookup(After(limit, requests), key), limit(key.bucket), a, k, AdmittedIn(limit, requests, key, a, b));
      } else {
        SpanBound(limit, requests[..n], key, a, k);
      }
    }
  }

  lemma {:induction false} SessionWithinPrincipal(
    limit: string -> nat, requests: seq<Request>, bucket: string, principal: string, session: nat, a: int, b: int)
    ensures AdmittedIn(limit, requests, SessionKey(bucket, principal, session), a, b)
            <= AdmittedIn(limit, requests, PrincipalKey(bucket, principal), a, b)
  {
    if requests != [] {
      SessionWithinPrincipal(limit, requests[..|requests| - 1], bucket, principal, session, a, b);
    }
  }

  /** The two-key check meets the bound for the session and for the principal over all its sessions together. */
  lemma TwoKeyBound(
    limit: string -> nat, requests: seq<Request>, bucket: string, principal: string, session: nat, a: int, k: nat)
    requires InOrder(requests)
    ensures AdmittedIn(limit, requests, SessionKey(bucket, principal, session), a, a + k * WINDOW)
            <= AdmittedIn(limit, requests, PrincipalKey(bucket, principal), a, a + k * WINDOW)
            <= Cap(limit(bucket), k)
  {
    SessionWithinPrincipal(limit, requests, bucket, principal, session, a, a + k * WINDOW);
    SpanBound(limit, requests, PrincipalKey(bucket, principal), a, k);
  }

  // ---------- The bound is met ----------

  /** A request that counts under the key: of the session for a session's key, without one for a principal's. */
  function Ask(key: Key, time: int): Request {
    Request(key.bucket, key.principal, if key.SessionKey? then Some(key.session) else None, time, false, Answered, Answered)
  }

  function Repeat(requests: seq<Request>, key: Key, time: int, n: nat): seq<Request> {
    if n == 0 then requests else Repeat(requests, key, time, n - 1) + [Ask(key, time)]
  }

  /** A span of time, and the key that is watched in it. */
  datatype Watch = Watch(key: Key, a: int, b: int)

  /** The counters that the key's requests increment, and how many of them were admitted in the span. */
  ghost predicate Reaches(limit: string -> nat, requests: seq<Request>, x: Watch, e: Option<Entry>, admitted: nat) {
    forall part :: Reached(part, limit, requests, x, e, admitted)
  }

  datatype Part = Counter | Shared | Total

  predicate Reached(part: Part, limit: string -> nat, requests: seq<Request>, x: Watch, e: Option<Entry>, admitted: nat) {
    match part
    case Counter => Lookup(After(limit, requests), x.key) == e
    case Shared => Lookup(After(limit, requests), PrincipalKey(x.key.bucket, x.key.principal)) == e
    case Total => AdmittedIn(limit, requests, x.key, x.a, x.b) == admitted
  }

  lemma OneAdmitted(limit: string -> nat, requests: seq<Request>, x: Watch, time: int, e: Option<Entry>, admitted: nat)
    requires Reaches(limit, requests, x, e, admitted) && Increment(e, time, false).count <= limit(x.key.bucket)
    ensures Reaches(limit, requests + [Ask(x.key, time)], x, Some(Increment(e, time, false)),
                    admitted + if x.a <= time < x.b then 1 else 0)
  {
    assert Reached(Counter, limit, requests, x, e, admitted) && Reached(Shared, limit, requests, x, e, admitted);
    assert Reached(Total, limit, requests, x, e, admitted);
    assert (requests + [Ask(x.key, time)])[..|requests|] == requests;
  }

  /** Repeats within a window that has room are all admitted. */
  lemma {:induction false} RepeatsAdmitted(
    limit: string -> nat, requests: seq<Request>, x: Watch, time: int, n: nat, e: Entry, admitted: nat)
    requires Reaches(limit, requests, x, Some(e), admitted)
    requires time < e.start + WINDOW && e.count + n <= limit(x.key.bucket) && x.a <= time < x.b
    ensures Reaches(limit, Repeat(requests, x.key, time, n), x, Some(Entry(e.start, e.count + n)), admitted + n)
  {
    if n > 0 {
      RepeatsAdmitted(limit, requests, x, time, n - 1, e, admitted);
      OneAdmitted(limit, Repeat(requests, x.key, time, n - 1), x, time, Some(Entry(e.start, e.count + n - 1)), admitted + n - 1);
    }
  }

  lemma {:induction false} RepeatsInOrder(requests: seq<Request>, key: Key, time: int, n: nat)
    requires InOrder(requests) && (requests != [] ==> requests[|requests| - 1].time <= time)
    ensures InOrder(Repeat(requests, key, time, n))
    ensures var r := Repeat(requests, key, time, n); r != [] ==> r[|r| - 1].time <= time
  {
    if n > 0 {
      RepeatsInOrder(requests, key, time, n - 1);
    }
  }

  /** One request opens a window just before `a`; the rest of its limit comes at `a`, and then a full window's worth
    as soon as each window is over. */
  function Burst(limit: nat, key: Key, a: int, k: nat): seq<Request>
    requires limit >= 1
  {
    if k == 0 then Repeat([Ask(key, a - 1)], key, a, limit - 1)
    else Repeat(Burst(limit, key, a, k - 1), key, a - 1 + k * WINDOW, limit)
  }

  lemma FirstOpens(limit: string -> nat, x: Watch)
    requires limit(x.key.bucket) >= 1
    ensures Reaches(limit, [Ask(x.key, x.a - 1)], x, Some(Entry(x.a - 1, 1)), 0)
  {
    assert Reaches(limit, [], x, None, 0) by {
      forall part ensures Reached(part, limit, [], x, None, 0) {}
    }
    OneAdmitted(limit, [], x, x.a - 1, None, 0);
    assert [] + [Ask(x.key, x.a - 1)] == [Ask(x.key, x.a - 1)];
  }

  lemma BurstStarts(limit: string -> nat, x: Watch, n: nat)
    requires n == limit(x.key.bucket) >= 1 && x.a < x.b
    ensures Reaches(limit, Burst(n, x.key, x.a, 0), x, Some(Entry(x.a - 1, n)), n - 1)
  {
    FirstOpens(limit, x);
    RepeatsAdmitted(limit, [Ask(x.key, x.a - 1)], x, x.a, n - 1, Entry(x.a - 1, 1), 0);
  }

  /** A window later the whole limit is admitted again. */
  lemma BurstGoesOn(limit: string -> nat, requests: seq<Request>, x: Watch, n: nat, start: int, admitted: nat)
    requires n == limit(x.key.bucket) >= 1 && x.a <= start + WINDOW < x.b
    requires Reaches(limit, requests, x, Some(Entry(start, n)), admitted)
    ensures Reaches(limit, Repeat(requests, x.key, start + WINDOW, n), x, Some(Entry(start + WINDOW, n)), admitted + n)
  {
    var t := start + WINDOW;
    OneAdmitted(limit, requests, x, t, Some(Entry(start, n)), admitted);
    RepeatsAdmitted(limit, requests + [Ask(x.key, t)], x, t, n - 1, Entry(t, 1), admitted + 1);
    RepeatFirst(requests, x.key, t, n);
  }

  lemma {:induction false} BurstAdmitted(limit: string -> nat, x: Watch, n: nat, k: nat)
    requires n == limit(x.key.bucket) >= 1 && x.a < x.b && x.a - 1 + k * WINDOW < x.b
    ensures Reaches(limit, Burst(n, x.key, x.a, k), x, Some(Entry(x.a - 1 + k * WINDOW, n)), k * n + n - 1)
  {
    if k == 0 {
      BurstStarts(limit, x, n);
    } else {
      assert (k - 1) * WINDOW + WINDOW == k * WINDOW && (k - 1) * n + n == k * n;
      BurstAdmitted(limit, x, n, k - 1);
      assert (k - 1) * WINDOW >= 0;
      BurstGoesOn(limit, Burst(n, x.key, x.a, k - 1), x, n, x.a - 1 + (k - 1) * WINDOW, (k - 1) * n + n - 1);
    }
  }

  lemma {:induction false} BurstInOrder(limit: nat, key: Key, a: int, k: nat)
    requires limit >= 1
    ensures InOrder(Burst(limit, key, a, k))
    ensures var r := Burst(limit, key, a, k); r != [] ==> r[|r| - 1].time <= a + k * WINDOW
  {
    if k == 0 {
      RepeatsInOrder([Ask(key, a - 1)], key, a, limit - 1);
    } else {
      BurstInOrder(limit, key, a, k - 1);
      assert (k - 1) * WINDOW + WINDOW == k * WINDOW;
      RepeatsInOrder(Burst(limit, key, a, k - 1), key, a - 1 + k * WINDOW, limit);
    }
  }

  lemma {:induction false} RepeatFirst(requests: seq<Request>, key: Key, time: int, n: nat)
    requires n >= 1
    ensures Repeat(requests, key, time, n) == Repeat(requests + [Ask(key, time)], key, time, n - 1)
    ensures Repeat(requests, key, time, n) != []
  {
    if n > 1 {
      RepeatFirst(requests, key, time, n - 1);
    }
  }

  /** Whatever the limits, for every key and every span of whole windows some traffic meets the bound, so no smaller
    one holds. */
  lemma SpanBoundIsTight(limit: string -> nat, key: Key, a: int, k: nat)
    ensures exists requests :: InOrder(requests) && AdmittedIn(limit, requests, key, a, a + k * WINDOW) == Cap(limit(key.bucket), k)
  {
    var n, x := limit(key.bucket), Watch(key, a, a + k * WINDOW);
    if n == 0 || k == 0 {
      assert InOrder([]) && AdmittedIn(limit, [], key, a, a + k * WINDOW) == 0;
    } else {
      assert (k - 1) * WINDOW >= 0 && (k - 1) * WINDOW + WINDOW == k * WINDOW;
      BurstAdmitted(limit, x, n, k);
      assert Reached(Total, limit, Burst(n, key, a, k), x, Some(Entry(a - 1 + k * WINDOW, n)), k * n + n - 1);
      BurstInOrder(n, key, a, k);
    }
  }

  // ---------- The limiter itself ----------

  class Limiter {
    var entries: map<Key, Entry>

    constructor ()
      ensures entries == map[]
    {
      entries := map[];
    }

    ghost predicate Valid()
      reads this
    {
      forall key :: key in entries ==> entries[key].count >= 1
    }

    /** `enforce_rate_limit`, with the script run statement by statement. */
    method Enforce(key: Key, limit: nat, now: int, edge: bool, reach: Reach) returns (verdict: Verdict)
      requires Valid()
      modifies this
      ensures Valid()
      ensures entries == if reach == Unreachable then old(entries)
                         else old(entries)[key := Increment(Lookup(old(entries), key), now, edge)]
      ensures reach != Unreachable ==>
                && key in entries
                && entries[key] ==
                     if key in old(entries)
                        && (now < old(entries)[key].start + 60_000 || (now == old(entries)[key].start + 60_000 && edge))
                     then Entry(old(entries)[key].start, old(entries)[key].count + 1)
                     else Entry(now, 1)
      ensures verdict == Judge(entries, key, limit, reach)
      ensures verdict == Unavailable <==> reach != Answered
      ensures verdict == Admitted <==> reach == Answered && key in entries && entries[key].count <= limit
    {
      if reach == Unreachable {
        return Unavailable;
      }
      var live := key in entries
        && (now < entries[key].start + WINDOW || (now == entries[key].start + WINDOW && edge));
      var count := if live then entries[key].count + 1 else 1;
      if count == 1 {
        entries := entries[key := Entry(now, count)];
      } else {
        entries := entries[key := Entry(entries[key].start, count)];
      }
      if reach == Unacknowledged {
        return Unavailable;
      }
      if count > limit {
        return TooMany;
      }
      return Admitted;
    }

    /** `principal_rate_limit` without a session, `session_rate_limit` with one: the principal's counter first, and
      the session's only if that admits. */
    method Handle(limit: string -> nat, r: Request) returns (verdict: Verdict)
      requires Valid()
      modifies this
      ensures Valid()
      ensures entries == Handled(old(entries), limit, r) && verdict == VerdictOn(old(entries), limit, r)
      ensures forall key :: key in entries && key != FirstKey(r) && (r.session.Some? ==> key != SecondKey(r)) ==>
                key in old(entries) && entries[key] == old(entries)[key]
      ensures r.session.Some? && !(r.first == Answered && entries[FirstKey(r)].count <= limit(r.bucket)) ==>
                Lookup(entries, SecondKey(r)) == Lookup(old(entries), SecondKey(r))
      ensures verdict == Unavailable ==> r.first != Answered || (r.session.Some? && r.second != Answered)
      ensures verdict == TooMany ==>
                || (FirstKey(r) in entries && entries[FirstKey(r)].count > limit(r.bucket))
                || (r.session.Some? && SecondKey(r) in entries && entries[SecondKey(r)].count > limit(r.bucket))
      ensures verdict == Admitted ==>
                && r.first == Answered && FirstKey(r) in entries && entries[FirstKey(r)].count <= limit(r.bucket)
                && (r.session.Some? ==>
                      && r.second == Answered && SecondKey(r) in entries
                      && entries[SecondKey(r)].count <= limit(r.bucket))
    {
      verdict := Enforce(FirstKey(r), limit(r.bucket), r.time, r.edge, r.first);
      if verdict == Admitted && r.session.Some? {
        verdict := Enforce(SecondKey(r), limit(r.bucket), r.time, r.edge, r.second);
      }
    }
  }
}
