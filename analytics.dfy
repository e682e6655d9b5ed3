/**
 * Server-side analytics: the in-memory metrics the request, assessment and
 * user hooks update, with the response-time window and its percentiles, and
 * the bounded buffer of recent server events.
 */
module Analytics {
  import opened Wrappers
  import opened ObjectTables

  // ---------------------------------------------------------------------
  // Counters keyed by name
  // ---------------------------------------------------------------------

  /** `(t[key] || 0)`: the count under `key`, zero when there is none. */
  function Count(t: Table<nat>, key: string): nat
  {
    Lookup(t, key).GetOr(0)
  }

  /** `t[key] = (t[key] || 0) + 1`. */
  function Bump(t: Table<nat>, key: string): Table<nat>
  {
    Assign<nat>(t, key, Count(t, key) + 1)
  }

  /** The sum of all counts. */
  function Total(t: Table<nat>): nat
  {
    if t == [] then 0 else t[0].1 + Total(t[1..])
  }

  /** Assigning a key changes the lookup of that key and of no other. */
  lemma {:induction false} LookupAssign<V>(t: Table<V>, key: string, v: V, other: string)
    ensures Lookup(Assign(t, key, v), other) == if other == key then Some(v) else Lookup(t, other)
  {
    if t != [] && t[0].0 != key {
      LookupAssign(t[1..], key, v, other);
    }
  }

  /** Bumping a key adds one to its count and leaves every other count as it was. */
  lemma BumpCounts(t: Table<nat>, key: string, other: string)
    ensures Count(Bump(t, key), other) == Count(t, other) + (if other == key then 1 else 0)
  {
    LookupAssign<nat>(t, key, Count(t, key) + 1, other);
  }

  /** Assigning `v` under `key` replaces that key's count in the sum. */
  lemma {:induction false} AssignTotal(t: Table<nat>, key: string, v: nat)
    ensures Total(Assign(t, key, v)) + Count(t, key) == Total(t) + v
  {
    if t != [] && t[0].0 != key {
      AssignTotal(t[1..], key, v);
      assert Assign(t, key, v)[1..] == Assign(t[1..], key, v);
    }
  }

  /** Bumping any key adds exactly one to the sum of the counts. */
  lemma BumpTotal(t: Table<nat>, key: string)
    ensures Total(Bump(t, key)) == Total(t) + 1
  {
    AssignTotal(t, key, Count(t, key) + 1);
  }

  // ---------------------------------------------------------------------
  // Bounded windows
  // ---------------------------------------------------------------------

  /** The response-time window and the event buffer both keep 1000 entries. */
  const Limit := 1000

  /** `push(x)` followed by one `shift()` when the array has grown past `limit`. */
  function Window<T>(s: seq<T>, x: T, limit: nat): seq<T>
  {
    var pushed := s + [x];
    if |pushed| > limit then pushed[1..] else pushed
  }

  /**
   * A window that was within its limit stays within it, ends with the new
   * entry, and holds the most recent entries in arrival order.
   */
  lemma WindowKeepsMostRecent<T>(s: seq<T>, x: T, limit: nat)
    requires |s| <= limit && limit > 0
    ensures var w := Window(s, x, limit);
      && |w| <= limit
      && |w| == (if |s| < limit then |s| + 1 else limit)
      && w[|w| - 1] == x
      && w == (s + [x])[|s| + 1 - |w|..]
  {
  }

  /** The bound alone, as the updates of the metrics object use it. */
  lemma WindowBounded<T>(s: seq<T>, x: T, limit: nat)
    requires |s| <= limit
    ensures |Window(s, x, limit)| <= limit
  {
  }

  // ---------------------------------------------------------------------
  // Percentiles
  // ---------------------------------------------------------------------

  predicate Sorted(s: seq<int>)
  {
    forall i, j :: 0 <= i <= j < |s| ==> s[i] <= s[j]
  }

  /** `x` placed before the first element of `s` that is not smaller. */
  function Insert(x: int, s: seq<int>): seq<int>
  {
    if s == [] || x <= s[0] then [x] + s else [s[0]] + Insert(x, s[1..])
  }

  /** `[...s].sort((a, b) => a - b)`, as an insertion sort. */
  function SortOf(s: seq<int>): seq<int>
  {
    if s == [] then [] else Insert(s[0], SortOf(s[1..]))
  }

  lemma {:induction false} InsertPermutes(x: int, s: seq<int>)
    ensures multiset(Insert(x, s)) == multiset(s) + multiset{x}
  {
    if s != [] && x > s[0] {
      InsertPermutes(x, s[1..]);
      assert s == [s[0]] + s[1..];
    }
  }

  /** Every element of `Insert(x, s)` is at least any bound of `x` and of `s`. */
  lemma {:induction false} InsertAbove(x: int, s: seq<int>, b: int)
    requires b <= x && forall i :: 0 <= i < |s| ==> b <= s[i]
    ensures forall i :: 0 <= i < |Insert(x, s)| ==> b <= Insert(x, s)[i]
  {
    if s != [] && x > s[0] {
      InsertAbove(x, s[1..], b);
    }
  }

  /** Inserting into a sorted sequence keeps it sorted. */
  lemma {:induction false} InsertSorted(x: int, s: seq<int>)
    requires Sorted(s)
    ensures Sorted(Insert(x, s))
  {
    if s != [] && x > s[0] {
      InsertSorted(x, s[1..]);
      InsertAbove(x, s[1..], s[0]);
    }
  }

  /** The sort returns the same durations, in ascending order. */
  lemma {:induction false} SortOfSortsAndPermutes(s: seq<int>)
    ensures Sorted(SortOf(s)) && multiset(SortOf(s)) == multiset(s) && |SortOf(s)| == |s|
  {
    if s != [] {
      SortOfSortsAndPermutes(s[1..]);
      InsertSorted(s[0], SortOf(s[1..]));
      InsertPermutes(s[0], SortOf(s[1..]));
      assert s == [s[0]] + s[1..];
      assert |multiset(SortOf(s))| == |SortOf(s)|;
    }
  }

  /**
   * `sorted[Math.floor(sorted.length * q / 100)] || 0`. The fraction 0.5 is
   * exact in binary; 0.95 and 0.99 are each a little below their decimal
   * value, by less than half a unit in the last place of the product, so the
   * product rounds back to `n * q / 100` whenever that is whole and the
   * floor is the integer quotient.
   */
  function Percentile(sorted: seq<int>, q: nat): int
    requires q < 100
  {
    if sorted == [] then 0 else sorted[|sorted| * q / 100]
  }

  /** p50 <= p95 <= p99, and each percentile of a non-empty window is one of its durations. */
  lemma PercentilesOrdered(times: seq<int>)
    ensures Percentile(SortOf(times), 50) <= Percentile(SortOf(times), 95) <= Percentile(SortOf(times), 99)
    ensures times != [] ==> Percentile(SortOf(times), 50) in times && Percentile(SortOf(times), 95) in times
                            && Percentile(SortOf(times), 99) in times
  {
    var s := SortOf(times);
    SortOfSortsAndPermutes(times);
    if s != [] {
      var n := |s|;
      assert n * 50 / 100 <= n * 95 / 100 <= n * 99 / 100 < n;
      assert s[n * 50 / 100] in multiset(s);
      assert s[n * 95 / 100] in multiset(s);
      assert s[n * 99 / 100] in multiset(s);
    }
  }

  /** The three percentiles `recordRequest` stores. */
  datatype Percentiles = Percentiles(p50: int, p95: int, p99: int)

  function PercentilesOf(times: seq<int>): (r: Percentiles)
    ensures r.p50 <= r.p95 <= r.p99
  {
    PercentilesOrdered(times);
    var sorted := SortOf(times);
    Percentiles(Percentile(sorted, 50), Percentile(sorted, 95), Percentile(sorted, 99))
  }

  /** The 50th percentile of a window whose durations are all equal is that duration. */
  lemma UniformWindowPercentile(times: seq<int>, d: int)
    requires times != [] && forall i :: 0 <= i < |times| ==> times[i] == d
    ensures Percentile(SortOf(times), 50) == d && Percentile(SortOf(times), 99) == d
  {
    PercentilesOrdered(times);
  }

  // ---------------------------------------------------------------------
  // Server events
  // ---------------------------------------------------------------------

  /** The request properties an event records; `None` stands for a missing one. */
  datatype Request = Request(ip: Option<string>, forwardedFor: Option<string>, userAgent: Option<string>,
                             referer: Option<string>, path: Option<string>)

  datatype EventMetadata = EventMetadata(ip: Option<string>, userAgent: Option<string>, referer: Option<string>,
                                         path: Option<string>)

  datatype Event = Event(timestamp: string, event: string, data: string, metadata: Option<EventMetadata>)

  /** `a || b` on an optional string: a missing or empty `a` falls back to `b`. */
  function Or(a: Option<string>, b: Option<string>): (r: Option<string>)
    ensures r == a || r == b
    ensures a.Some? && a.value != "" ==> r == a
  {
    if a.Some? && a.value != "" then a else b
  }

  /** The event `trackServerEvent` records; without a request its metadata is empty. */
  function EventOf(eventName: string, data: string, request: Option<Request>, now: string): (e: Event)
    ensures e.event == eventName && e.data == data && e.timestamp == now
    ensures e.metadata.Some? <==> request.Some?
    ensures request.Some? ==>
      e.metadata.value.path == request.value.path && e.metadata.value.ip == Or(request.value.ip, request.value.forwardedFor)
  {
    match request
    case None => Event(now, eventName, data, None)
    case Some(r) => Event(now, eventName, data, Some(EventMetadata(Or(r.ip, r.forwardedFor), r.userAgent, r.referer, r.path)))
  }

  // ---------------------------------------------------------------------
  // The metrics object
  // ---------------------------------------------------------------------

  /** `req.path || '/'`. */
  function PathKey(path: Option<string>): (k: string)
    ensures k != ""
    ensures path.Some? && path.value != "" ==> k == path.value
  {
    if path.Some? && path.value != "" then path.value else "/"
  }

  /** `value || 'unknown'`. */
  function OrUnknown(value: Option<string>): (k: string)
    ensures k != ""
    ensures value.Some? && value.value != "" ==> k == value.value
  {
    if value.Some? && value.value != "" then value.value else "unknown"
  }

  /** A status in 200..399 counts as a success; every other status, 1xx included, as an error. */
  predicate IsSuccess(statusCode: int)
  {
    200 <= statusCode < 400
  }

  /** The module-level `metrics` object and `analyticsBuffer`. */
  class Metrics {
    var total: nat
    var success: nat
    var error: nat
    var byPath: Table<nat>
    var assessmentsTotal: nat
    var byFluid: Table<nat>
    var byRegime: Table<nat>
    var active: set<string>
    var signups: nat
    var conversions: nat
    var responseTimes: seq<int>
    var p50: int
    var p95: int
    var p99: int
    var analyticsBuffer: seq<Event>

    /**
     * What every update keeps: the counters agree with their breakdowns, the
     * windows stay bounded and the stored percentiles are those of the window.
     */
    ghost predicate Valid()
      reads this
    {
      && success + error == total
      && Total(byPath) == total
      && Total(byFluid) == assessmentsTotal
      && Total(byRegime) == assessmentsTotal
      && |responseTimes| <= Limit
      && Percentiles(p50, p95, p99) == PercentilesOf(responseTimes)
      && |analyticsBuffer| <= Limit
    }

    constructor ()
      ensures Valid()
      ensures total == 0 && success == 0 && error == 0 && byPath == []
      ensures assessmentsTotal == 0 && byFluid == [] && byRegime == []
      ensures active == {} && signups == 0 && conversions == 0
      ensures responseTimes == [] && p50 == 0 && p95 == 0 && p99 == 0
      ensures analyticsBuffer == []
    {
      total, success, error, byPath := 0, 0, 0, [];
      assessmentsTotal, byFluid, byRegime := 0, [], [];
      active, signups, conversions := {}, 0, 0;
      responseTimes, p50, p95, p99 := [], 0, 0, 0;
      analyticsBuffer := [];
    }

    /** `recordRequest(req, res, duration)`. */
    method RecordRequest(path: Option<string>, statusCode: int, duration: int)
      requires Valid()
      modifies this
      ensures Valid()
      ensures total == old(total) + 1
      ensures success == old(success) + (if IsSuccess(statusCode) then 1 else 0)
      ensures error == old(error) + (if IsSuccess(statusCode) then 0 else 1)
      ensures byPath == Bump(old(byPath), PathKey(path))
      ensures responseTimes == Window(old(responseTimes), duration, Limit)
      ensures Percentiles(p50, p95, p99) == PercentilesOf(responseTimes)
      ensures assessmentsTotal == old(assessmentsTotal) && byFluid == old(byFluid) && byRegime == old(byRegime)
      ensures active == old(active) && signups == old(signups) && conversions == old(conversions)
      ensures analyticsBuffer == old(analyticsBuffer)
    {
      CountRequest(path, statusCode);
      RecordDuration(duration);
    }

    /** The counting half of `recordRequest`: the totals and the per-path count. */
    method CountRequest(path: Option<string>, statusCode: int)
      requires success + error == total && Total(byPath) == total
      modifies this
      ensures success + error == total && Total(byPath) == total
      ensures total == old(total) + 1
      ensures success == old(success) + (if IsSuccess(statusCode) then 1 else 0)
      ensures error == old(error) + (if IsSuccess(statusCode) then 0 else 1)
      ensures byPath == Bump(old(byPath), PathKey(path))
      ensures responseTimes == old(responseTimes) && p50 == old(p50) && p95 == old(p95) && p99 == old(p99)
      ensures assessmentsTotal == old(assessmentsTotal) && byFluid == old(byFluid) && byRegime == old(byRegime)
      ensures active == old(active) && signups == old(signups) && conversions == old(conversions)
      ensures analyticsBuffer == old(analyticsBuffer)
    {
      total := total + 1;
      if IsSuccess(statusCode) {
        success := success + 1;
      } else {
        error := error + 1;
      }
      BumpTotal(byPath, PathKey(path));
      byPath := Bump(byPath, PathKey(path));
    }

    /** The timing half of `recordRequest`: the window and the percentiles taken from it. */
    method RecordDuration(duration: int)
      requires |responseTimes| <= Limit
      modifies this
      ensures |responseTimes| <= Limit && p50 <= p95 <= p99
      ensures responseTimes == Window(old(responseTimes), duration, Limit)
      ensures Percentiles(p50, p95, p99) == PercentilesOf(responseTimes)
      ensures total == old(total) && success == old(success) && error == old(error) && byPath == old(byPath)
      ensures assessmentsTotal == old(assessmentsTotal) && byFluid == old(byFluid) && byRegime == old(byRegime)
      ensures active == old(active) && signups == old(signups) && conversions == old(conversions)
      ensures analyticsBuffer == old(analyticsBuffer)
    {
      WindowBounded(responseTimes, duration, Limit);
      responseTimes := Window(responseTimes, duration, Limit);
      var ps := PercentilesOf(responseTimes);
      p50, p95, p99 := ps.p50, ps.p95, ps.p99;
    }

    /** `recordAssessment(assessment)`. */
    method RecordAssessment(fluidId: Option<string>, regime: Option<string>)
      requires Valid()
      modifies this
      ensures Valid()
      ensures assessmentsTotal == old(assessmentsTotal) + 1
      ensures byFluid == Bump(old(byFluid), OrUnknown(fluidId))
      ensures byRegime == Bump(old(byRegime), OrUnknown(regime))
      ensures total == old(total) && success == old(success) && error == old(error) && byPath == old(byPath)
      ensures active == old(active) && signups == old(signups) && conversions == old(conversions)
      ensures responseTimes == old(responseTimes) && p50 == old(p50) && p95 == old(p95) && p99 == old(p99)
      ensures analyticsBuffer == old(analyticsBuffer)
    {
      assessmentsTotal := assessmentsTotal + 1;
      BumpTotal(byFluid, OrUnknown(fluidId));
      BumpTotal(byRegime, OrUnknown(regime));
      byFluid := Bump(byFluid, OrUnknown(fluidId));
      byRegime := Bump(byRegime, OrUnknown(regime));
    }

    /** `recordUserActivity(userId)`: the active set only grows. */
    method RecordUserActivity(userId: string)
      requires Valid()
      modifies this
      ensures Valid()
      ensures active == old(active) + {userId}
      ensures total == old(total) && success == old(success) && error == old(error) && byPath == old(byPath)
      ensures assessmentsTotal == old(assessmentsTotal) && byFluid == old(byFluid) && byRegime == old(byRegime)
      ensures signups == old(signups) && conversions == old(conversions)
      ensures responseTimes == old(responseTimes) && p50 == old(p50) && p95 == old(p95) && p99 == old(p99)
      ensures analyticsBuffer == old(analyticsBuffer)
    {
      active := active + {userId};
    }

    /** `trackServerEvent(eventName, data, request)`: the event is recorded and returned. */
    method TrackServerEvent(eventName: string, data: string, request: Option<Request>, now: string)
      returns (e: Event)
      requires Valid()
      modifies this
      ensures Valid()
      ensures e == EventOf(eventName, data, request, now)
      ensures analyticsBuffer == Window(old(analyticsBuffer), e, Limit)
      ensures total == old(total) && success == old(success) && error == old(error) && byPath == old(byPath)
      ensures assessmentsTotal == old(assessmentsTotal) && byFluid == old(byFluid) && byRegime == old(byRegime)
      ensures active == old(active) && signups == old(signups) && conversions == old(conversions)
      ensures responseTimes == old(responseTimes) && p50 == old(p50) && p95 == old(p95) && p99 == old(p99)
    {
      e := EventOf(eventName, data, request, now);
      WindowBounded(analyticsBuffer, e, Limit);
      analyticsBuffer := Window(analyticsBuffer, e, Limit);
    }
  }

  /** A request counts under its own path, or under `/` when it has none, and under no other path. */
  lemma RequestCountsUnderItsPath(byPath: Table<nat>, path: Option<string>, other: string)
    ensures Count(Bump(byPath, PathKey(path)), PathKey(path)) == Count(byPath, PathKey(path)) + 1
    ensures other != PathKey(path) ==> Count(Bump(byPath, PathKey(path)), other) == Count(byPath, other)
    ensures path.None? ==> PathKey(path) == "/"
  {
    BumpCounts(byPath, PathKey(path), PathKey(path));
    BumpCounts(byPath, PathKey(path), other);
  }
}
