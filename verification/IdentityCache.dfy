/**
 * The cache-aside layer and its one use: the identity of a driver by user.
 * There is no invalidation; a stored null reads back as a miss.
 */
module CacheModel {
  import opened Common

  /** A stored text, by what JSON.parse makes of it. */
  datatype Raw<+V> = JsonNull | Json(value: V) | Malformed

  function Parse<V>(raw: Raw<V>): Option<V> {
    match raw
    case Json(v) => Some(v)
    case _ => None
  }

  function Stringify<V>(v: Option<V>): Raw<V> {
    match v
    case Some(x) => Json(x)
    case None => JsonNull
  }

  function Get<K, V>(redis: map<K, Raw<V>>, key: K): Option<V> {
    if key in redis then Parse(redis[key]) else None
  }

  /** Only a stored value is a hit; a miss stores what was computed, even null. */
  lemma StoredNullIsAMiss<K, V>(redis: map<K, Raw<V>>, key: K, v: Option<V>)
    ensures Get(redis[key := Stringify(v)], key) == v
    ensures Get(redis, key).Some? <==> key in redis && redis[key].Json?
  {
    match v case Some(x) => case None =>
  }

  class CacheService<K(==), V> {
    var redis: map<K, Raw<V>>

    constructor ()
      ensures redis == map[]
    {
      redis := map[];
    }

    method GetCached(key: K) returns (r: Option<V>)
      ensures r == Get(redis, key)
    {
      if key !in redis {
        return None;
      }
      match redis[key]
      case Json(v) => return Some(v);
      case JsonNull => return None;
      case Malformed => return None;
    }

    method Set(key: K, value: Option<V>)
      modifies this
      ensures redis == old(redis)[key := Stringify(value)]
    {
      redis := redis[key := Stringify(value)];
    }

    /** A factory that rejects is passed on and nothing is cached. */
    method GetOrSet(key: K, factory: () -> Check<Option<V>>) returns (r: Check<Option<V>>)
      modifies this
      ensures Get(old(redis), key).Some? ==> r == Pass(Get(old(redis), key)) && redis == old(redis)
      ensures Get(old(redis), key).None? && factory().Fail? ==> r == factory() && redis == old(redis)
      ensures Get(old(redis), key).None? && factory().Pass? ==>
        r == factory() && redis == old(redis)[key := Stringify(r.value)] && Get(redis, key) == r.value
    {
      var cached := GetCached(key);
      if cached.Some? {
        return Pass(cached);
      }
      r := factory();
      if r.Pass? {
        Set(key, r.value);
        StoredNullIsAMiss(old(redis), key, r.value);
      }
    }
  }
}

/**
 * Level B: lookups by user in flight, each Redis call and database read a step,
 * with entries evicted or garbled and profiles created at any time.
 */
module IdentityCache {
  import opened Common
  import opened CacheModel

  type UserId = nat
  type ProfileId = nat

  datatype Identity = Identity(id: ProfileId, userId: UserId)

  datatype Cont =
    | ReadDb(user: UserId, absentAtBegin: bool)
    | Store(user: UserId, value: Option<Identity>, absentAtBegin: bool)

  /**
   * History of a reply: what the database held when it was served and at the
   * call's own read of it, and whether it held nothing when the call began.
   */
  datatype Answer = Answer(user: UserId, value: Option<Identity>, hit: bool, held: Option<Identity>,
                           heldAtRead: Option<Identity>, absentAtBegin: bool)

  datatype Sys = Sys(
    profiles: map<UserId, ProfileId>,
    redis: map<UserId, Raw<Identity>>,
    calls: map<nat, Cont>,
    seen: map<nat, Option<Identity>>,  // history: what the database held at each call's read
    answers: seq<Answer>)

  datatype Event =
    | Approve(user: UserId, profile: ProfileId)
    | Begin(id: nat, user: UserId)  // redis get
    | Resume(id: nat)
    | Evict(user: UserId)
    | Garble(user: UserId)
    | Crash(id: nat)

  function Held(profiles: map<UserId, ProfileId>, user: UserId): Option<Identity> {
    if user in profiles then Some(Identity(profiles[user], user)) else None
  }

  function Happen(y: Sys, e: Event): Sys {
    match e
    case Approve(user, profile) =>
      if user in y.profiles then y else y.(profiles := y.profiles[user := profile])
    case Begin(id, user) =>
      if id in y.calls then y else
      var cached := Get(y.redis, user);
      var held := Held(y.profiles, user);
      if cached.Some? then y.(answers := y.answers + [Answer(user, cached, true, held, held, user !in y.profiles)])
      else y.(calls := y.calls[id := ReadDb(user, user !in y.profiles)])
    case Resume(id) =>
      if id !in y.calls then y else
      (match y.calls[id]
       case ReadDb(user, absent) =>
         y.(calls := y.calls[id := Store(user, Held(y.profiles, user), absent)],
            seen := y.seen[id := Held(y.profiles, user)])
       case Store(user, value, absent) =>
         var read := if id in y.seen then y.seen[id] else None;
         y.(redis := y.redis[user := Stringify(value)],
            calls := y.calls - {id},
            answers := y.answers + [Answer(user, value, false, Held(y.profiles, user), read, absent)]))
    case Evict(user) => y.(redis := y.redis - {user})
    case Garble(user) => y.(redis := y.redis[user := Malformed])
    case Crash(id) => y.(calls := y.calls - {id})
  }

  predicate Sound(profiles: map<UserId, ProfileId>, user: UserId, value: Option<Identity>) {
    value.Some? ==> value == Held(profiles, user)
  }

  predicate SoundAnswer(profiles: map<UserId, ProfileId>, a: Answer) {
    && Sound(profiles, a.user, a.value)
    && (a.hit ==> a.value.Some? && a.value == a.held)
    && (!a.hit ==> a.value == a.heldAtRead)
    && (a.value.None? ==> a.absentAtBegin)
  }

  ghost predicate Valid(y: Sys) {
    && (forall user :: user in y.redis ==> Sound(y.profiles, user, Parse(y.redis[user])))
    && (forall id :: id in y.calls ==>
          match y.calls[id]
          case ReadDb(user, absent) => user !in y.profiles ==> absent
          case Store(user, value, absent) =>
            Sound(y.profiles, user, value) && id in y.seen && y.seen[id] == value && (value.None? ==> absent))
    && (forall i :: 0 <= i < |y.answers| ==> SoundAnswer(y.profiles, y.answers[i]))
  }

  lemma HappenKeepsValid(y: Sys, e: Event)
    requires Valid(y)
    ensures Valid(Happen(y, e))
  {
    if e.Resume? && e.id in y.calls && y.calls[e.id].Store? {
      StoredNullIsAMiss(y.redis, y.calls[e.id].user, y.calls[e.id].value);
    }
  }

  /** What a miss found is served from the cache by the next lookup; that it found nothing is not. */
  lemma MissThenLookup(y: Sys, id: nat, next: nat)
    requires id in y.calls && y.calls[id].Store? && next !in y.calls
    ensures var k := y.calls[id]; var z := Happen(y, Resume(id)); var w := Happen(z, Begin(next, k.user));
      && |z.answers| == |y.answers| + 1 && z.answers[|y.answers|].value == k.value && !z.answers[|y.answers|].hit
      && (k.value.Some? ==>
            && w.calls == z.calls && |w.answers| == |z.answers| + 1
            && w.answers[|z.answers|].value == k.value && w.answers[|z.answers|].hit)
      && (k.value.None? ==> next in w.calls && w.calls[next].ReadDb? && w.answers == z.answers)
  {
    StoredNullIsAMiss(y.redis, y.calls[id].user, y.calls[id].value);
  }

  ghost function RunAll(y: Sys, events: seq<Event>): (r: Sys)
    requires Valid(y)
    ensures Valid(r)
    decreases |events|
  {
    if events == [] then y else
    HappenKeepsValid(y, events[0]);
    RunAll(Happen(y, events[0]), events[1..])
  }

  const EMPTY := Sys(map[], map[], map[], map[], [])

  /**
   * Level B. The cache is transparent: a hit is what the database held at that
   * moment; a miss is what it held at the call's read; a profile reported is the
   * one it holds; and absence is reported only if the database held nothing when
   * the call began, never from cache.
   */
  lemma {:induction false} CacheIsTransparent(events: seq<Event>, i: nat)
    requires i < |RunAll(EMPTY, events).answers|
    ensures var y := RunAll(EMPTY, events);
      && (y.answers[i].hit ==> y.answers[i].value == y.answers[i].held && y.answers[i].value.Some?)
      && (!y.answers[i].hit ==> y.answers[i].value == y.answers[i].heldAtRead)
      && (y.answers[i].value.Some? ==> var user := y.answers[i].user;
            user in y.profiles && y.answers[i].value == Some(Identity(y.profiles[user], user)))
      && (y.answers[i].value.None? ==> !y.answers[i].hit && y.answers[i].absentAtBegin)
  {
    assert SoundAnswer(RunAll(EMPTY, events).profiles, RunAll(EMPTY, events).answers[i]);
  }
}
