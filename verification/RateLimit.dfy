/**
 The in-memory token bucket of internal/ratelimit: lazy refill under a ceiling, an idle
 sweep that forgets buckets, and Return.  Time is in seconds and token counts are exact.

 Limiter is the mutable object.  Its methods are proved against the functions on State,
 and every theorem about whole runs is about those functions.
 */
module RateLimit {

  // What a bucket is filed under: a client address or the id of a registration key.
  datatype Key = Address(ip: string) | Registration(id: int)

  datatype Config = Config(rate: real, burst: int)

  datatype Bucket = Bucket(tokens: real, last: real)

  datatype State = State(buckets: map<Key, Bucket>, lastEvict: real)

  const EVICT_INTERVAL: real := 300.0
  const IDLE_LIMIT: real := 600.0

  function Min(a: real, b: real): real {
    if a <= b then a else b
  }

  function Full(c: Config): real {
    c.burst as real
  }

  function Fresh(now: real): State {
    State(map[], now)
  }

  predicate Idle(b: Bucket, now: real) {
    b.last < now - IDLE_LIMIT
  }

  function Evicted(buckets: map<Key, Bucket>, now: real): map<Key, Bucket> {
    map k | k in buckets && !Idle(buckets[k], now) :: buckets[k]
  }

  function Swept(s: State, now: real): State {
    if now - s.lastEvict > EVICT_INTERVAL then State(Evicted(s.buckets, now), now) else s
  }

  // The tokens that time alone adds.
  function Accrued(c: Config, from: real, to: real): real {
    (to - from) * c.rate
  }

  function Refilled(c: Config, b: Bucket, now: real): real {
    Min(Full(c), b.tokens + Accrued(c, b.last, now))
  }

  predicate Allowed(c: Config, s: State, k: Key, now: real) {
    var buckets := Swept(s, now).buckets;
    k !in buckets || Refilled(c, buckets[k], now) >= 1.0
  }

  function AfterAllow(c: Config, s: State, k: Key, now: real): State {
    var t := Swept(s, now);
    var tokens :=
      if k !in t.buckets then Full(c) - 1.0
      else
        var r := Refilled(c, t.buckets[k], now);
        if r >= 1.0 then r - 1.0 else r;
    t.(buckets := t.buckets[k := Bucket(tokens, now)])
  }

  function AfterReturn(c: Config, s: State, k: Key): State {
    if k !in s.buckets then s
    else
      var b := s.buckets[k];
      s.(buckets := s.buckets[k := b.(tokens := Min(Full(c), b.tokens + 1.0))])
  }

  /** The limiter as an object whose methods update its buckets in place. */
  class Limiter {
    const config: Config
    var buckets: map<Key, Bucket>
    var lastEvict: real

    ghost function Contents(): State
      reads this
    {
      State(buckets, lastEvict)
    }

    constructor (perMinute: real, burst: int, now: real)
      ensures config == Config(perMinute / 60.0, burst)
      ensures Contents() == Fresh(now)
    {
      config := Config(perMinute / 60.0, burst);
      buckets := map[];
      lastEvict := now;
    }

    method Allow(key: Key, now: real) returns (ok: bool)
      modifies this`buckets, this`lastEvict
      ensures ok == Allowed(config, old(Contents()), key, now)
      ensures Contents() == AfterAllow(config, old(Contents()), key, now)
      // Granted or not, the call is the bucket's last use; of the others only those idle for
      // ten minutes go, and only if the last sweep was five minutes ago.
      ensures key in buckets && buckets[key].last == now
      ensures forall k :: k in buckets && k != key ==> k in old(buckets) && buckets[k] == old(buckets)[k]
      ensures forall k :: k in old(buckets) && k != key ==>
                (k in buckets <==> now - old(lastEvict) <= 300.0 || now - 600.0 <= old(buckets)[k].last)
      ensures lastEvict == if now - old(lastEvict) > 300.0 then now else old(lastEvict)
    {
      if now - lastEvict > EVICT_INTERVAL {
        EvictIdle(now);
        lastEvict := now;
      }
      assert Contents() == Swept(old(Contents()), now);
      if key !in buckets {
        buckets := buckets[key := Bucket(config.burst as real - 1.0, now)];
        return true;
      }
      var tokens := buckets[key].tokens + Accrued(config, buckets[key].last, now);
      if tokens > config.burst as real {
        tokens := config.burst as real;
      }
      ok := tokens >= 1.0;
      if ok {
        tokens := tokens - 1.0;
      }
      buckets := buckets[key := Bucket(tokens, now)];
    }

    method Return(key: Key)
      modifies this`buckets
      ensures Contents() == AfterReturn(config, old(Contents()), key)
      ensures buckets.Keys == old(buckets.Keys)
      ensures forall k :: k in buckets ==>
                buckets[k].last == old(buckets)[k].last && (k != key ==> buckets[k] == old(buckets)[k])
    {
      if key !in buckets {
        return;
      }
      var tokens := buckets[key].tokens + 1.0;
      if tokens > config.burst as real {
        tokens := config.burst as real;
      }
      buckets := buckets[key := buckets[key].(tokens := tokens)];
    }

    method EvictIdle(now: real)
      modifies this`buckets
      ensures buckets == Evicted(old(buckets), now)
      ensures forall k :: k in buckets <==> k in old(buckets) && now - 600.0 <= old(buckets)[k].last
    {
      var cutoff := now - IDLE_LIMIT;
      var pending := buckets.Keys;
      while pending != {}
        invariant pending <= old(buckets).Keys
        invariant buckets.Keys == set k | k in old(buckets) && (k in pending || !Idle(old(buckets)[k], now))
        invariant forall k :: k in buckets ==> buckets[k] == old(buckets)[k]
        decreases |pending|
      {
        var k :| k in pending;
        if buckets[k].last < cutoff {
          buckets := buckets - {k};
        }
        pending := pending - {k};
      }
    }
  }

  // ---------------------------------------------------------------------------------------
  // Runs

  datatype Event = Allow(key: Key, at: real) | Return(key: Key, at: real)

  predicate Ordered(start: real, evs: seq<Event>)
    decreases |evs|
  {
    evs != [] ==> start <= evs[0].at && Ordered(evs[0].at, evs[1..])
  }

  function EndTime(start: real, evs: seq<Event>): real {
    if evs == [] then start else evs[|evs| - 1].at
  }

  function Step(c: Config, s: State, e: Event): State {
    match e
    case Allow(k, at) => AfterAllow(c, s, k, at)
    case Return(k, _) => AfterReturn(c, s, k)
  }

  predicate Answer(c: Config, s: State, e: Event) {
    e.Allow? ==> Allowed(c, s, e.key, e.at)
  }

  function Final(c: Config, s: State, evs: seq<Event>): State
    decreases |evs|
  {
    if evs == [] then s else Final(c, Step(c, s, evs[0]), evs[1..])
  }

  function Answers(c: Config, s: State, evs: seq<Event>): (r: seq<bool>)
    ensures |r| == |evs|
    decreases |evs|
  {
    if evs == [] then [] else [Answer(c, s, evs[0])] + Answers(c, Step(c, s, evs[0]), evs[1..])
  }

  // The settings under which a bucket never goes negative and time never drains it.
  predicate Sound(c: Config) {
    c.burst >= 1 && c.rate >= 0.0
  }

  predicate Valid(c: Config, s: State, now: real) {
    && s.lastEvict <= now
    && forall k :: k in s.buckets ==>
         && 0.0 <= s.buckets[k].tokens <= Full(c)
         && s.lastEvict - IDLE_LIMIT <= s.buckets[k].last <= now
  }

  // The tokens key k could spend at time `now`; a forgotten key has a full bucket.
  function Level(c: Config, s: State, k: Key, now: real): real {
    if k in s.buckets then Refilled(c, s.buckets[k], now) else Full(c)
  }

  lemma {:induction false} AccruedNonNegative(c: Config, from: real, to: real)
    requires Sound(c) && from <= to
    ensures Accrued(c, from, to) >= 0.0
  {
  }

  lemma {:induction false} AccruedAtOnce(c: Config, t: real)
    ensures Accrued(c, t, t) == 0.0
  {
  }

  lemma {:induction false} AccruedAdds(c: Config, t0: real, t1: real, t2: real)
    ensures Accrued(c, t0, t2) == Accrued(c, t0, t1) + Accrued(c, t1, t2)
  {
    assert (t2 - t0) * c.rate == (t1 - t0) * c.rate + (t2 - t1) * c.rate;
  }

  lemma {:induction false} RefilledInRange(c: Config, b: Bucket, now: real)
    requires Sound(c) && 0.0 <= b.tokens <= Full(c) && b.last <= now
    ensures b.tokens <= Refilled(c, b, now) <= Full(c)
  {
    AccruedNonNegative(c, b.last, now);
  }

  lemma {:induction false} StepKeepsValid(c: Config, s: State, e: Event, now: real)
    requires Sound(c) && Valid(c, s, now) && now <= e.at
    ensures Valid(c, Step(c, s, e), e.at)
  {
    if e.Allow? && e.key in s.buckets {
      RefilledInRange(c, s.buckets[e.key], e.at);
    }
  }

  // Every state a limiter reaches is Valid.
  lemma {:induction false} RunKeepsValid(c: Config, s: State, evs: seq<Event>, now: real)
    requires Sound(c) && Valid(c, s, now) && Ordered(now, evs)
    ensures Valid(c, Final(c, s, evs), EndTime(now, evs))
    ensures now <= EndTime(now, evs)
    decreases |evs|
  {
    if evs != [] {
      StepKeepsValid(c, s, evs[0], now);
      RunKeepsValid(c, Step(c, s, evs[0]), evs[1..], evs[0].at);
    }
  }

  // Letting time pass in two stretches is the same as letting it pass in one.
  lemma {:induction false} LevelCompose(c: Config, s: State, k: Key, t1: real, t2: real)
    requires Sound(c) && t1 <= t2
    ensures Level(c, s, k, t2) == Min(Full(c), Level(c, s, k, t1) + Accrued(c, t1, t2))
    ensures Level(c, s, k, t1) <= Level(c, s, k, t2) <= Level(c, s, k, t1) + Accrued(c, t1, t2)
  {
    AccruedNonNegative(c, t1, t2);
    if k in s.buckets {
      AccruedAdds(c, s.buckets[k].last, t1, t2);
    }
  }

  // Event e makes the idle sweep forget k's bucket.
  predicate Evicts(s: State, e: Event, k: Key) {
    e.Allow? && k in s.buckets && k !in Swept(s, e.at).buckets
  }

  // An Allow, granted or not, is its key's last use.  It makes the limiter forget another key
  // exactly when the last sweep is over five minutes old and that key's last use over ten.
  lemma {:induction false} AllowRemembers(c: Config, s: State, k: Key, at: real)
    ensures var s' := Step(c, s, Allow(k, at));
            && k in s'.buckets && s'.buckets[k].last == at
            && (forall j :: j in s'.buckets && j != k ==> j in s.buckets && s'.buckets[j] == s.buckets[j])
            && (forall j :: j in s.buckets && j != k ==>
                  (j !in s'.buckets <==> at - s.lastEvict > 300.0 && at - s.buckets[j].last > 600.0))
            && (forall j :: Evicts(s, Allow(k, at), j) <==>
                  j in s.buckets && at - s.lastEvict > 300.0 && at - s.buckets[j].last > 600.0)
  {
  }

  // Event e spends a token of key k.
  predicate Grants(c: Config, s: State, e: Event, k: Key) {
    e.Allow? && e.key == k && Allowed(c, s, k, e.at)
  }

  // The least a bucket holds when the sweep forgets it.
  function IdleLevel(c: Config): real {
    Min(Full(c), Accrued(c, 0.0, IDLE_LIMIT))
  }

  // The level of k that event e starts from: the sweep may just have filled it up.
  function LevelBefore(c: Config, s: State, e: Event, k: Key): real {
    if Evicts(s, e, k) then Full(c) else Level(c, s, k, e.at)
  }

  lemma {:induction false} EvictedLevel(c: Config, s: State, e: Event, k: Key, now: real)
    requires Sound(c) && Valid(c, s, now) && now <= e.at && Evicts(s, e, k)
    ensures IdleLevel(c) <= Level(c, s, k, e.at) <= Full(c)
  {
    var b := s.buckets[k];
    AccruedAdds(c, b.last, b.last + IDLE_LIMIT, e.at);
    AccruedNonNegative(c, b.last + IDLE_LIMIT, e.at);
    assert Accrued(c, b.last, b.last + IDLE_LIMIT) == Accrued(c, 0.0, IDLE_LIMIT);
  }

  lemma {:induction false} ReturnLevel(c: Config, b: Bucket, now: real)
    requires Sound(c) && 0.0 <= b.tokens <= Full(c) && b.last <= now
    ensures Refilled(c, b.(tokens := Min(Full(c), b.tokens + 1.0)), now) == Min(Full(c), Refilled(c, b, now) + 1.0)
  {
    AccruedNonNegative(c, b.last, now);
  }

  // How one event moves one key's level: only a grant takes a token, only a Return of that
  // key gives one back, the ceiling holds, and nothing else about the key changes.
  lemma {:induction false} StepLevel(c: Config, s: State, e: Event, k: Key, now: real)
    requires Sound(c) && Valid(c, s, now) && now <= e.at
    ensures Grants(c, s, e, k) <==> e == Allow(k, e.at) && LevelBefore(c, s, e, k) >= 1.0
    ensures Level(c, Step(c, s, e), k, e.at) ==
            if Grants(c, s, e, k) then LevelBefore(c, s, e, k) - 1.0
            else if e == Return(k, e.at) then Min(Full(c), LevelBefore(c, s, e, k) + 1.0)
            else LevelBefore(c, s, e, k)
    ensures 0.0 <= Level(c, s, k, e.at) <= LevelBefore(c, s, e, k) <= Full(c)
  {
    if k in s.buckets {
      RefilledInRange(c, s.buckets[k], e.at);
      if e == Return(k, e.at) {
        ReturnLevel(c, s.buckets[k], e.at);
      }
    }
    if e == Allow(k, e.at) {
      AccruedAtOnce(c, e.at);
    }
  }

  lemma {:induction false} OrderedConcat(start: real, a: seq<Event>, b: seq<Event>)
    requires Ordered(start, a + b)
    ensures Ordered(start, a) && Ordered(EndTime(start, a), b)
    decreases |a|
  {
    if a == [] {
      assert a + b == b;
    } else {
      assert (a + b)[1..] == a[1..] + b;
      OrderedConcat(a[0].at, a[1..], b);
    }
  }

  lemma {:induction false} FinalConcat(c: Config, s: State, a: seq<Event>, b: seq<Event>)
    ensures Final(c, s, a + b) == Final(c, Final(c, s, a), b)
    ensures Answers(c, s, a + b) == Answers(c, s, a) + Answers(c, Final(c, s, a), b)
    decreases |a|
  {
    if a == [] {
      assert a + b == b;
    } else {
      assert (a + b)[1..] == a[1..] + b;
      FinalConcat(c, Step(c, s, a[0]), a[1..], b);
    }
  }
}
