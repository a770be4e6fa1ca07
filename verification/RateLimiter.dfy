/**
 * The WebSocket rate limiter: a sliding window per key that keeps only the
 * timestamps still inside it, compared with a reference that keeps every
 * accepted timestamp.
 */
module RateLimiter {
  type Time = int

  /** The timestamps after a moment, in order. */
  function After(ts: seq<Time>, start: Time): (r: seq<Time>)
    ensures |r| <= |ts|
    ensures forall t :: t in r <==> t in ts && t > start
  {
    if ts == [] then []
    else if ts[0] > start then [ts[0]] + After(ts[1..], start)
    else After(ts[1..], start)
  }

  type Table = map<string, seq<Time>>

  function Of(table: Table, key: string): seq<Time> {
    if key in table then table[key] else []
  }

  datatype Call = Consume(key: string, now: Time) | Clear(key: string)

  /** The limiter's answer and its pruned table. */
  function Limit(hits: Table, limit: nat, window: nat, key: string, now: Time): (Table, bool) {
    var live := After(Of(hits, key), now - window);
    if |live| >= limit then (hits[key := live], false) else (hits[key := live + [now]], true)
  }

  /** The reference: refuse when `limit` accepted calls lie in the window; forget nothing. */
  function Reference(history: Table, limit: nat, window: nat, key: string, now: Time): (Table, bool) {
    if |After(Of(history, key), now - window)| >= limit then (history, false)
    else (history[key := Of(history, key) + [now]], true)
  }

  // ------------------------------------------------------------ The window

  lemma {:induction false} AfterAppend(ts: seq<Time>, us: seq<Time>, start: Time)
    ensures After(ts + us, start) == After(ts, start) + After(us, start)
  {
    if ts == [] {
      assert ts + us == us;
    } else {
      assert (ts + us)[1..] == ts[1..] + us;
      AfterAppend(ts[1..], us, start);
    }
  }

  /** Pruning earlier does not show later. */
  lemma {:induction false} AfterTwice(ts: seq<Time>, early: Time, late: Time)
    requires early <= late
    ensures After(After(ts, early), late) == After(ts, late)
  {
    if ts != [] {
      AfterTwice(ts[1..], early, late);
    }
  }

  predicate Sorted(ts: seq<Time>) {
    forall i, j :: 0 <= i < j < |ts| ==> ts[i] <= ts[j]
  }

  lemma {:induction false} AllAfter(ts: seq<Time>, start: Time)
    requires forall i :: 0 <= i < |ts| ==> ts[i] > start
    ensures After(ts, start) == ts
  {
    if ts != [] {
      AllAfter(ts[1..], start);
    }
  }

  // ------------------------------------------------- Pruned against history

  /** Both tables agree on every window the clock can still ask about. */
  ghost predicate SameWindows(hits: Table, history: Table, window: nat, now: Time) {
    forall key, start :: start >= now - window ==> After(Of(hits, key), start) == After(Of(history, key), start)
  }

  lemma ClearedWindows(hits: Table, history: Table, window: nat, now: Time, k: string)
    requires SameWindows(hits, history, window, now)
    ensures SameWindows(hits - {k}, history - {k}, window, now)
  {
    forall j ensures Of(hits - {k}, j) == if j == k then [] else Of(hits, j) {}
    forall j ensures Of(history - {k}, j) == if j == k then [] else Of(history, j) {}
  }

  lemma ConsumeAgrees(hits: Table, history: Table, limit: nat, window: nat, before: Time, key: string, now: Time)
    requires SameWindows(hits, history, window, before) && before <= now
    ensures Limit(hits, limit, window, key, now).1 == Reference(history, limit, window, key, now).1
    ensures SameWindows(Limit(hits, limit, window, key, now).0, Reference(history, limit, window, key, now).0,
                        window, now)
  {
    var hits', allowed := Limit(hits, limit, window, key, now).0, Limit(hits, limit, window, key, now).1;
    var history' := Reference(history, limit, window, key, now).0;
    var live := After(Of(hits, key), now - window);
    assert live == After(Of(history, key), now - window);
    forall k, start | start >= now - window ensures After(Of(hits', k), start) == After(Of(history', k), start) {
      assert After(Of(hits, k), start) == After(Of(history, k), start);
      if k == key {
        AfterTwice(Of(hits, key), now - window, start);
        AfterAppend(live, [now], start);
        AfterAppend(Of(history, key), [now], start);
      }
    }
  }

  /** The answers to a run of calls; clearing a key forgets it in both. */
  function Answers(hits: Table, limit: nat, window: nat, calls: seq<Call>): seq<bool>
    decreases |calls|
  {
    if calls == [] then [] else
    match calls[0]
    case Consume(key, now) =>
      var r := Limit(hits, limit, window, key, now);
      [r.1] + Answers(r.0, limit, window, calls[1..])
    case Clear(key) => Answers(hits - {key}, limit, window, calls[1..])
  }

  function ReferenceAnswers(history: Table, limit: nat, window: nat, calls: seq<Call>): seq<bool>
    decreases |calls|
  {
    if calls == [] then [] else
    match calls[0]
    case Consume(key, now) =>
      var r := Reference(history, limit, window, key, now);
      [r.1] + ReferenceAnswers(r.0, limit, window, calls[1..])
    case Clear(key) => ReferenceAnswers(history - {key}, limit, window, calls[1..])
  }

  /** The clock does not run backwards. */
  predicate Monotone(now: Time, calls: seq<Call>)
    decreases |calls|
  {
    if calls == [] then true else
    match calls[0]
    case Consume(_, t) => now <= t && Monotone(t, calls[1..])
    case Clear(_) => Monotone(now, calls[1..])
  }

  lemma {:induction false} AnswersAgree(hits: Table, history: Table, limit: nat, window: nat, now: Time,
                                        calls: seq<Call>)
    requires SameWindows(hits, history, window, now) && Monotone(now, calls)
    ensures Answers(hits, limit, window, calls) == ReferenceAnswers(history, limit, window, calls)
    decreases |calls|
  {
    if calls != [] {
      match calls[0]
      case Consume(key, t) =>
        ConsumeAgrees(hits, history, limit, window, now, key, t);
        AnswersAgree(Limit(hits, limit, window, key, t).0, Reference(history, limit, window, key, t).0,
                     limit, window, t, calls[1..]);
      case Clear(key) =>
        ClearedWindows(hits, history, window, now, key);
        AnswersAgree(hits - {key}, history - {key}, limit, window, now, calls[1..]);
    }
  }

  /** Keeping only what is inside the window gives, call for call, the answers of keeping everything. */
  lemma {:induction false} PruningIsUnobservable(limit: nat, window: nat, start: Time, calls: seq<Call>)
    requires Monotone(start, calls)
    ensures Answers(map[], limit, window, calls) == ReferenceAnswers(map[], limit, window, calls)
  {
    AnswersAgree(map[], map[], limit, window, start, calls);
  }

  /** With a clock that runs backwards it would not: the pruned table has forgotten too much. */
  lemma {:induction false} BackwardClockIsObservable()
    ensures exists calls :: Answers(map[], 2, 10, calls) != ReferenceAnswers(map[], 2, 10, calls)
  {
    var h0, h1: Table := map[], map["k" := [0]];
    var h2, r2: Table := map["k" := [100]], map["k" := [0, 100]];
    assert After([], -10) == After([], 90) == After([], -5) == [];
    assert After([0], 90) == [];
    assert After([100], -5) == [100];
    assert [0, 100][1..] == [100];
    assert After([0, 100], -5) == [0, 100];
    assert Of(h0, "k") == [] && Of(h1, "k") == [0] && Of(h2, "k") == [100] && Of(r2, "k") == [0, 100];
    assert [] + [0] == [0] && [] + [100] == [100] && [0] + [100] == [0, 100];
    assert h0["k" := [0]] == h1 && h1["k" := [100]] == h2 && h1["k" := [0, 100]] == r2;
    assert Limit(h0, 2, 10, "k", 0) == (h1, true) && Limit(h1, 2, 10, "k", 100) == (h2, true);
    assert Limit(h2, 2, 10, "k", 5).1;
    assert Reference(h0, 2, 10, "k", 0) == (h1, true) && Reference(h1, 2, 10, "k", 100) == (r2, true);
    assert !Reference(r2, 2, 10, "k", 5).1;
    var last := [Consume("k", 5)];
    var calls := [Consume("k", 0), Consume("k", 100)] + last;
    assert calls[1..][1..] == last;
    assert Answers(h2, 2, 10, last)[0] && !ReferenceAnswers(r2, 2, 10, last)[0];
    assert Answers(h0, 2, 10, calls) == [true] + ([true] + Answers(h2, 2, 10, last));
    assert ReferenceAnswers(h0, 2, 10, calls) == [true] + ([true] + ReferenceAnswers(r2, 2, 10, last));
    assert Answers(h0, 2, 10, calls)[2] != ReferenceAnswers(h0, 2, 10, calls)[2];
  }

  // ------------------------------------------------------------------ Rate

  /** The moments at which the limiter lets a key through. */
  function Allowed(hits: Table, limit: nat, window: nat, calls: seq<Call>, key: string): seq<Time>
    decreases |calls|
  {
    if calls == [] then [] else
    match calls[0]
    case Consume(k, now) =>
      var r := Limit(hits, limit, window, k, now);
      (if r.1 && k == key then [now] else []) + Allowed(r.0, limit, window, calls[1..], key)
    case Clear(k) => Allowed(hits - {k}, limit, window, calls[1..], key)
  }

  /** Acceptances `limit` apart are at least a window apart. */
  predicate Spaced(ts: seq<Time>, limit: nat, window: nat) {
    forall i :: 0 <= i && i + limit < |ts| ==> ts[i + limit] - ts[i] >= window
  }

  /** The reference appends to a key's history exactly what it allows the key. */
  lemma ReferenceRecords(history: Table, limit: nat, window: nat, k: string, now: Time, key: string)
    ensures var r := Reference(history, limit, window, k, now);
      Of(r.0, key) == Of(history, key) + if r.1 && k == key then [now] else []
  {
  }

  /** The reference's table after a run of calls. */
  function FinalHistory(history: Table, limit: nat, window: nat, calls: seq<Call>): Table
    decreases |calls|
  {
    if calls == [] then history else
    match calls[0]
    case Consume(k, now) => FinalHistory(Reference(history, limit, window, k, now).0, limit, window, calls[1..])
    case Clear(k) => FinalHistory(history - {k}, limit, window, calls[1..])
  }

  /** The acceptances of a key, as the reference decides. */
  function ReferenceAllowed(history: Table, limit: nat, window: nat, calls: seq<Call>, key: string): seq<Time>
    decreases |calls|
  {
    if calls == [] then [] else
    match calls[0]
    case Consume(k, now) =>
      var r := Reference(history, limit, window, k, now);
      (if r.1 && k == key then [now] else []) + ReferenceAllowed(r.0, limit, window, calls[1..], key)
    case Clear(k) => ReferenceAllowed(history - {k}, limit, window, calls[1..], key)
  }

  lemma {:induction false} AllowedAgrees(hits: Table, history: Table, limit: nat, window: nat, now: Time,
                                         calls: seq<Call>, key: string)
    requires SameWindows(hits, history, window, now) && Monotone(now, calls)
    ensures Allowed(hits, limit, window, calls, key) == ReferenceAllowed(history, limit, window, calls, key)
    decreases |calls|
  {
    if calls != [] {
      match calls[0]
      case Consume(k, t) =>
        ConsumeAgrees(hits, history, limit, window, now, k, t);
        AllowedAgrees(Limit(hits, limit, window, k, t).0, Reference(history, limit, window, k, t).0,
                      limit, window, t, calls[1..], key);
      case Clear(k) =>
        ClearedWindows(hits, history, window, now, k);
        AllowedAgrees(hits - {k}, history - {k}, limit, window, now, calls[1..], key);
    }
  }

  lemma {:induction false} AllowedIsRecorded(history: Table, limit: nat, window: nat, calls: seq<Call>, key: string)
    requires Clear(key) !in calls
    ensures Of(FinalHistory(history, limit, window, calls), key)
         == Of(history, key) + ReferenceAllowed(history, limit, window, calls, key)
    decreases |calls|
  {
    if calls != [] {
      assert calls[0] in calls && Clear(key) !in calls[1..];
      match calls[0]
      case Consume(k, t) =>
        ReferenceRecords(history, limit, window, k, t, key);
        AllowedIsRecorded(Reference(history, limit, window, k, t).0, limit, window, calls[1..], key);
      case Clear(k) =>
        assert Of(history - {k}, key) == Of(history, key);
        AllowedIsRecorded(history - {k}, limit, window, calls[1..], key);
    }
  }

  predicate Regular(ts: seq<Time>, limit: nat, window: nat, now: Time) {
    Sorted(ts) && Spaced(ts, limit, window) && (ts != [] ==> ts[|ts| - 1] <= now)
  }

  lemma {:induction false} HistoryIsRegular(history: Table, limit: nat, window: nat, now: Time,
                                            calls: seq<Call>, key: string)
    requires Monotone(now, calls) && Regular(Of(history, key), limit, window, now)
    ensures Sorted(Of(FinalHistory(history, limit, window, calls), key))
    ensures Spaced(Of(FinalHistory(history, limit, window, calls), key), limit, window)
    decreases |calls|
  {
    if calls != [] {
      match calls[0]
      case Consume(k, t) =>
        ReferenceRecords(history, limit, window, k, t, key);
        if Reference(history, limit, window, k, t).1 && k == key {
          AcceptanceIsSpaced(Of(history, key), limit, window, t);
        }
        HistoryIsRegular(Reference(history, limit, window, k, t).0, limit, window, t, calls[1..], key);
      case Clear(k) =>
        assert Of(history - {k}, key) == if key == k then [] else Of(history, key);
        HistoryIsRegular(history - {k}, limit, window, now, calls[1..], key);
    }
  }

  lemma {:induction false} AcceptanceIsSpaced(accepted: seq<Time>, limit: nat, window: nat, now: Time)
    requires Sorted(accepted) && Spaced(accepted, limit, window) && (accepted != [] ==> accepted[|accepted| - 1] <= now)
    requires |After(accepted, now - window)| < limit
    ensures Sorted(accepted + [now]) && Spaced(accepted + [now], limit, window)
  {
    var next := accepted + [now];
    forall i | 0 <= i && i + limit < |next| ensures next[i + limit] - next[i] >= window {
      if i + limit == |accepted| {
        NotAfter(accepted, now - window, i);
      }
    }
  }

  lemma {:induction false} SuffixCounts(ts: seq<Time>, start: Time, i: nat)
    requires Sorted(ts) && i < |ts| && ts[i] > start
    ensures |After(ts, start)| >= |ts| - i
  {
    AfterAppend(ts[..i], ts[i..], start);
    assert ts == ts[..i] + ts[i..];
    AllAfter(ts[i..], start);
  }

  /** An element outside the suffix that lies after a moment is not after it. */
  lemma {:induction false} NotAfter(ts: seq<Time>, start: Time, i: nat)
    requires Sorted(ts) && i < |ts| - |After(ts, start)|
    ensures ts[i] <= start
  {
    if ts[i] > start { SuffixCounts(ts, start, i); }
  }

  lemma {:induction false} SpacedManyTimes(ts: seq<Time>, limit: nat, window: nat, i: nat, k: nat)
    requires Spaced(ts, limit, window) && i + k * limit < |ts|
    ensures ts[i + k * limit] - ts[i] >= k * window
  {
    if k != 0 {
      assert k * limit == (k - 1) * limit + limit && k * window == (k - 1) * window + window;
      SpacedManyTimes(ts, limit, window, i, k - 1);
      assert ts[(i + (k - 1) * limit) + limit] - ts[i + (k - 1) * limit] >= window;
    }
  }

  /** Any span of D ms sees at most limit * (D / window + 1) acceptances of a key that is not cleared. */
  lemma {:induction false} SpanIsBounded(limit: nat, window: nat, start: Time, calls: seq<Call>, key: string,
                                         from: nat, to: nat)
    requires window > 0 && Monotone(start, calls) && Clear(key) !in calls
    requires from <= to < |Allowed(map[], limit, window, calls, key)|
    ensures var ts := Allowed(map[], limit, window, calls, key);
      && (from + limit == to ==> ts[to] - ts[from] >= window)
      && ts[to] >= ts[from] && to - from + 1 <= limit * ((ts[to] - ts[from]) / window + 1)
  {
    AllowedIsRegular(limit, window, start, calls, key);
    SpacedSpan(Allowed(map[], limit, window, calls, key), limit, window, from, to);
  }

  lemma {:induction false} AllowedIsRegular(limit: nat, window: nat, start: Time, calls: seq<Call>, key: string)
    requires Monotone(start, calls) && Clear(key) !in calls
    ensures var ts := Allowed(map[], limit, window, calls, key); Sorted(ts) && Spaced(ts, limit, window)
  {
    AllowedAgrees(map[], map[], limit, window, start, calls, key);
    AllowedIsRecorded(map[], limit, window, calls, key);
    HistoryIsRegular(map[], limit, window, start, calls, key);
    var ts := Allowed(map[], limit, window, calls, key);
    assert Of(map[], key) + ts == ts;
  }

  lemma SpacedFar(ts: seq<Time>, limit: nat, window: nat, from: nat, to: nat, k: nat)
    requires Sorted(ts) && Spaced(ts, limit, window) && from + k * limit <= to < |ts|
    ensures ts[to] - ts[from] >= k * window
  {
    SpacedManyTimes(ts, limit, window, from, k);
    assert ts[from + k * limit] <= ts[to];
  }

  lemma SpacedSpan(ts: seq<Time>, limit: nat, window: nat, from: nat, to: nat)
    requires window > 0 && Sorted(ts) && Spaced(ts, limit, window) && from <= to < |ts|
    ensures from + limit == to ==> ts[to] - ts[from] >= window
    ensures ts[to] >= ts[from] && to - from + 1 <= limit * ((ts[to] - ts[from]) / window + 1)
  {
    assert ts[to] >= ts[from];
    var k := (ts[to] - ts[from]) / window + 1;
    assert k * window > ts[to] - ts[from];
    if from + k * limit <= to { SpacedFar(ts, limit, window, from, to, k); }
  }

  /**
   * A call is refused only when `limit` acceptances lie in the window. What is
   * stored afterwards is the acceptances in the window, this one included, and
   * never more than `limit`.
   */
  lemma {:induction false} RefusedOnlyWhenFull(hits: Table, limit: nat, window: nat, key: string, now: Time)
    requires forall k :: |Of(hits, k)| <= limit
    ensures var r := Limit(hits, limit, window, key, now);
      && (!r.1 <==> |After(Of(hits, key), now - window)| == limit)
      && Of(r.0, key) == After(Of(hits, key), now - window) + (if r.1 then [now] else [])
      && (forall k :: |Of(r.0, k)| <= limit)
      && (forall k :: k != key ==> Of(r.0, k) == Of(hits, k))
  {
    var r := Limit(hits, limit, window, key, now);
    assert |Of(hits, key)| <= limit;
    forall k ensures |Of(r.0, k)| <= limit && (k != key ==> Of(r.0, k) == Of(hits, k)) {
      assert |Of(hits, k)| <= limit;
    }
  }

  /** The limiter's table after a run of calls. */
  function FinalHits(hits: Table, limit: nat, window: nat, calls: seq<Call>): Table
    decreases |calls|
  {
    if calls == [] then hits else
    match calls[0]
    case Consume(k, now) => FinalHits(Limit(hits, limit, window, k, now).0, limit, window, calls[1..])
    case Clear(k) => FinalHits(hits - {k}, limit, window, calls[1..])
  }

  /** On any clock, no stored list ever exceeds the limit. */
  lemma {:induction false} ListsStayBounded(hits: Table, limit: nat, window: nat, calls: seq<Call>, key: string)
    requires forall k :: |Of(hits, k)| <= limit
    ensures |Of(FinalHits(hits, limit, window, calls), key)| <= limit
    decreases |calls|
  {
    if calls != [] {
      match calls[0]
      case Consume(k, now) =>
        RefusedOnlyWhenFull(hits, limit, window, k, now);
        ListsStayBounded(Limit(hits, limit, window, k, now).0, limit, window, calls[1..], key);
      case Clear(k) =>
        forall j ensures |Of(hits - {k}, j)| <= limit { assert |Of(hits, j)| <= limit; }
        ListsStayBounded(hits - {k}, limit, window, calls[1..], key);
    }
  }
}

/** The limiter as it runs. */
module RateLimiterService {
  import opened RateLimiter

  class WsRateLimiter {
    var hits: Table
    const limit: nat
    const windowMs: nat

    constructor (limit: nat, windowMs: nat)
      ensures hits == map[] && this.limit == limit && this.windowMs == windowMs
    {
      hits := map[];
      this.limit := limit;
      this.windowMs := windowMs;
    }

    method Consume(key: string, now: Time) returns (allowed: bool)
      modifies this
      ensures hits == Limit(old(hits), limit, windowMs, key, now).0
      ensures allowed == Limit(old(hits), limit, windowMs, key, now).1
    {
      var windowStart := now - windowMs;
      var stored := if key in hits then hits[key] else [];
      var timestamps := [];
      for i := 0 to |stored|
        invariant timestamps == After(stored[..i], windowStart) && hits == old(hits)
      {
        AfterAppend(stored[..i], [stored[i]], windowStart);
        assert stored[..i + 1] == stored[..i] + [stored[i]];
        if stored[i] > windowStart {
          timestamps := timestamps + [stored[i]];
        }
      }
      assert stored[..|stored|] == stored;
      if |timestamps| >= limit {
        hits := hits[key := timestamps];
        return false;
      }
      timestamps := timestamps + [now];
      hits := hits[key := timestamps];
      return true;
    }

    method Clear(key: string)
      modifies this
      ensures hits == old(hits) - {key}
    {
      hits := hits - {key};
    }
  }
}
