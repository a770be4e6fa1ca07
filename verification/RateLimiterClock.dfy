/**
 * What pruning forgets when the clock goes back, and exactly when that shows:
 * every run of calls, on any clock.
 */
module RateLimiterClock {
  import opened Common
  import opened RateLimiter

  /** An acceptance, and the highest reading of the clock by a later call of its key. */
  datatype Mark = Mark(at: Time, highest: Option<Time>)

  type Memory = map<string, seq<Mark>>

  function MarksOf(memory: Memory, key: string): seq<Mark> {
    if key in memory then memory[key] else []
  }

  /** A call reads the clock. */
  function Read(marks: seq<Mark>, now: Time): seq<Mark> {
    if marks == [] then [] else
    var m := marks[0];
    var highest := if m.highest.Some? && m.highest.value > now then m.highest.value else now;
    [Mark(m.at, Some(highest))] + Read(marks[1..], now)
  }

  function Times(marks: seq<Mark>): seq<Time> {
    if marks == [] then [] else [marks[0].at] + Times(marks[1..])
  }

  predicate IsKept(m: Mark, window: nat) {
    m.highest.Some? ==> m.at > m.highest.value - window
  }

  /** The acceptances that no later call has read the clock a window or more past. */
  function Kept(marks: seq<Mark>, window: nat): seq<Time> {
    if marks == [] then [] else (if IsKept(marks[0], window) then [marks[0].at] else []) + Kept(marks[1..], window)
  }

  /** The reference, marking its history. */
  function Recall(memory: Memory, limit: nat, window: nat, key: string, now: Time): Memory {
    var marks := Read(MarksOf(memory, key), now);
    memory[key := if |After(Times(marks), now - window)| >= limit then marks else marks + [Mark(now, None)]]
  }

  /** The window holds `limit` acceptances, but fewer that are still kept. */
  predicate Forgets(memory: Memory, limit: nat, window: nat, key: string, now: Time) {
    && |After(Times(MarksOf(memory, key)), now - window)| >= limit
    && |Kept(Read(MarksOf(memory, key), now), window)| < limit
  }

  /** The limiter holds what is kept, the reference everything. */
  ghost predicate Represents(hits: Table, history: Table, memory: Memory, window: nat) {
    forall key :: Of(hits, key) == Kept(MarksOf(memory, key), window) && Of(history, key) == Times(MarksOf(memory, key))
  }

  lemma {:induction false} ReadPrunes(marks: seq<Mark>, window: nat, now: Time)
    ensures Times(Read(marks, now)) == Times(marks)
    ensures Kept(Read(marks, now), window) == After(Kept(marks, window), now - window)
    ensures |Kept(Read(marks, now), window)| <= |After(Times(marks), now - window)|
    decreases |marks|
  {
    if marks != [] {
      var first := if IsKept(marks[0], window) then [marks[0].at] else [];
      ReadPrunes(marks[1..], window, now);
      AfterAppend(first, Kept(marks[1..], window), now - window);
      assert Read(marks, now)[1..] == Read(marks[1..], now);
      assert After([marks[0].at], now - window) == if marks[0].at > now - window then [marks[0].at] else [];
    }
  }

  lemma {:induction false} MarkAppended(marks: seq<Mark>, window: nat, now: Time)
    ensures Times(marks + [Mark(now, None)]) == Times(marks) + [now]
    ensures Kept(marks + [Mark(now, None)], window) == Kept(marks, window) + [now]
    decreases |marks|
  {
    if marks == [] {
      assert marks + [Mark(now, None)] == [Mark(now, None)];
    } else {
      assert (marks + [Mark(now, None)])[1..] == marks[1..] + [Mark(now, None)];
      MarkAppended(marks[1..], window, now);
    }
  }

  /** One call, on any clock: the answers differ exactly when the limiter has forgotten too much. */
  lemma AnswerDiffersIff(hits: Table, history: Table, memory: Memory, limit: nat, window: nat, key: string, now: Time)
    requires Represents(hits, history, memory, window)
    ensures Limit(hits, limit, window, key, now).1 != Reference(history, limit, window, key, now).1
       <==> Forgets(memory, limit, window, key, now)
  {
    var marks := MarksOf(memory, key);
    assert Of(hits, key) == Kept(marks, window) && Of(history, key) == Times(marks);
    ReadPrunes(marks, window, now);
  }

  lemma StaysRepresented(hits: Table, history: Table, memory: Memory, limit: nat, window: nat, key: string, now: Time)
    requires Represents(hits, history, memory, window) && !Forgets(memory, limit, window, key, now)
    ensures Represents(Limit(hits, limit, window, key, now).0, Reference(history, limit, window, key, now).0,
                       Recall(memory, limit, window, key, now), window)
  {
    var marks := MarksOf(memory, key);
    var memory' := Recall(memory, limit, window, key, now);
    var hits', history' := Limit(hits, limit, window, key, now).0, Reference(history, limit, window, key, now).0;
    assert Of(hits, key) == Kept(marks, window) && Of(history, key) == Times(marks);
    ReadPrunes(marks, window, now);
    MarkAppended(Read(marks, now), window, now);
    forall k
      ensures Of(hits', k) == Kept(MarksOf(memory', k), window) && Of(history', k) == Times(MarksOf(memory', k))
    {
      assert Of(hits, k) == Kept(MarksOf(memory, k), window) && Of(history, k) == Times(MarksOf(memory, k));
    }
  }

  /** No call of the run forgets. */
  predicate NeverForgets(memory: Memory, limit: nat, window: nat, calls: seq<Call>)
    decreases |calls|
  {
    if calls == [] then true else
    match calls[0]
    case Consume(key, now) =>
      && !Forgets(memory, limit, window, key, now)
      && NeverForgets(Recall(memory, limit, window, key, now), limit, window, calls[1..])
    case Clear(key) => NeverForgets(memory - {key}, limit, window, calls[1..])
  }

  lemma ClearRepresents(hits: Table, history: Table, memory: Memory, window: nat, key: string)
    requires Represents(hits, history, memory, window)
    ensures Represents(hits - {key}, history - {key}, memory - {key}, window)
  {
    forall k ensures && Of(hits - {key}, k) == Kept(MarksOf(memory - {key}, k), window)
                     && Of(history - {key}, k) == Times(MarksOf(memory - {key}, k)) {
      assert Of(hits, k) == Kept(MarksOf(memory, k), window) && Of(history, k) == Times(MarksOf(memory, k));
    }
  }

  lemma {:induction false} AnswersIff(hits: Table, history: Table, memory: Memory, limit: nat, window: nat,
                                      calls: seq<Call>)
    requires Represents(hits, history, memory, window)
    ensures Answers(hits, limit, window, calls) == ReferenceAnswers(history, limit, window, calls)
       <==> NeverForgets(memory, limit, window, calls)
    decreases |calls|
  {
    if calls != [] {
      match calls[0]
      case Consume(key, now) =>
        var r, q := Limit(hits, limit, window, key, now), Reference(history, limit, window, key, now);
        AnswerDiffersIff(hits, history, memory, limit, window, key, now);
        SameHeads(r.1, q.1, Answers(r.0, limit, window, calls[1..]), ReferenceAnswers(q.0, limit, window, calls[1..]));
        if !Forgets(memory, limit, window, key, now) {
          StaysRepresented(hits, history, memory, limit, window, key, now);
          AnswersIff(r.0, q.0, Recall(memory, limit, window, key, now), limit, window, calls[1..]);
        }
      case Clear(key) =>
        ClearRepresents(hits, history, memory, window, key);
        AnswersIff(hits - {key}, history - {key}, memory - {key}, limit, window, calls[1..]);
    }
  }

  lemma SameHeads(a: bool, b: bool, s: seq<bool>, t: seq<bool>)
    ensures [a] + s == [b] + t <==> a == b && s == t
  {
    assert ([a] + s)[0] == a && ([b] + t)[0] == b && ([a] + s)[1..] == s && ([b] + t)[1..] == t;
  }

  /** On any clock, pruning is unobservable over a run exactly when no call of it forgets. */
  lemma {:induction false} PruningShowsIffForgotten(limit: nat, window: nat, calls: seq<Call>)
    ensures Answers(map[], limit, window, calls) == ReferenceAnswers(map[], limit, window, calls)
       <==> NeverForgets(map[], limit, window, calls)
  {
    AnswersIff(map[], map[], map[], limit, window, calls);
  }

  /** A clock that does not go back never makes the limiter forget what counts. */
  lemma {:induction false} MonotoneNeverForgets(limit: nat, window: nat, start: Time, calls: seq<Call>)
    requires Monotone(start, calls)
    ensures NeverForgets(map[], limit, window, calls)
  {
    PruningIsUnobservable(limit, window, start, calls);
    PruningShowsIffForgotten(limit, window, calls);
  }
}
