/**
 The lazy, forgetful limiter against a simple one that never forgets a key and refills
 every key continuously: they answer every run alike exactly when 1 <= burst <= 600*rate.
 */
module LimiterRefinement {
  import opened RateLimit

  // The simple limiter: the level of every key that was ever named, as of `now`.
  datatype Ideal = Ideal(levels: map<Key, real>, now: real)

  function IdealLevel(c: Config, m: Ideal, k: Key): real {
    if k in m.levels then m.levels[k] else Full(c)
  }

  function Elapse(c: Config, m: Ideal, t: real): Ideal {
    Ideal(map k | k in m.levels :: Min(Full(c), m.levels[k] + Accrued(c, m.now, t)), t)
  }

  predicate IdealAnswer(c: Config, m: Ideal, e: Event) {
    e.Allow? ==> IdealLevel(c, Elapse(c, m, e.at), e.key) >= 1.0
  }

  function IdealStep(c: Config, m: Ideal, e: Event): Ideal {
    var m' := Elapse(c, m, e.at);
    var level := IdealLevel(c, m', e.key);
    var after :=
      if e.Return? then Min(Full(c), level + 1.0)
      else if level >= 1.0 then level - 1.0
      else level;
    m'.(levels := m'.levels[e.key := after])
  }

  function IdealAnswers(c: Config, m: Ideal, evs: seq<Event>): (r: seq<bool>)
    ensures |r| == |evs|
    decreases |evs|
  {
    if evs == [] then [] else [IdealAnswer(c, m, evs[0])] + IdealAnswers(c, IdealStep(c, m, evs[0]), evs[1..])
  }

  // No run tells the two limiters apart.
  ghost predicate Transparent(c: Config) {
    forall start: real, evs: seq<Event> :: Ordered(start, evs) ==>
      Answers(c, Fresh(start), evs) == IdealAnswers(c, Ideal(map[], start), evs)
  }

  // ---------------------------------------------------------------------------------------
  // Ten minutes refill a bucket: the two agree

  predicate Refills(c: Config) {
    1.0 <= Full(c) <= IDLE_LIMIT * c.rate
  }

  ghost predicate Agree(c: Config, s: State, m: Ideal) {
    forall k: Key :: Level(c, s, k, m.now) == IdealLevel(c, m, k)
  }

  lemma {:induction false} LevelsAgreeLater(c: Config, s: State, m: Ideal, t: real, k: Key)
    requires Sound(c) && Agree(c, s, m) && m.now <= t
    ensures Level(c, s, k, t) == IdealLevel(c, Elapse(c, m, t), k)
  {
    LevelCompose(c, s, k, m.now, t);
    AccruedNonNegative(c, m.now, t);
    assert Level(c, s, k, m.now) == IdealLevel(c, m, k);
  }

  lemma {:induction false} StepAgrees(c: Config, s: State, m: Ideal, e: Event)
    requires Refills(c) && Sound(c) && Valid(c, s, m.now) && Agree(c, s, m) && m.now <= e.at
    ensures Answer(c, s, e) == IdealAnswer(c, m, e)
    ensures Agree(c, Step(c, s, e), IdealStep(c, m, e))
  {
    forall k: Key
      ensures LevelBefore(c, s, e, k) == IdealLevel(c, Elapse(c, m, e.at), k)
      ensures Level(c, Step(c, s, e), k, e.at) == IdealLevel(c, IdealStep(c, m, e), k)
      ensures e == Allow(k, e.at) ==> Answer(c, s, e) == IdealAnswer(c, m, e)
    {
      LevelsAgreeLater(c, s, m, e.at, k);
      StepLevel(c, s, e, k, m.now);
      if Evicts(s, e, k) {
        EvictedLevel(c, s, e, k, m.now);
      }
    }
    assert e.Allow? ==> e == Allow(e.key, e.at);
  }

  lemma {:induction false} RunsAgree(c: Config, s: State, m: Ideal, evs: seq<Event>)
    requires Refills(c) && Sound(c) && Valid(c, s, m.now) && Agree(c, s, m) && Ordered(m.now, evs)
    ensures Answers(c, s, evs) == IdealAnswers(c, m, evs)
    decreases |evs|
  {
    if evs != [] {
      StepAgrees(c, s, m, evs[0]);
      StepKeepsValid(c, s, evs[0], m.now);
      RunsAgree(c, Step(c, s, evs[0]), IdealStep(c, m, evs[0]), evs[1..]);
    }
  }

  // ---------------------------------------------------------------------------------------
  // They do not: a run that tells them apart

  // n Allow calls for k, all at time t.
  function Burst(k: Key, t: real, n: nat): seq<Event> {
    seq(n, _ => Allow(k, t))
  }

  lemma {:induction false} BurstTail(k: Key, t: real, n: nat)
    requires n > 0
    ensures Burst(k, t, n)[0] == Allow(k, t) && Burst(k, t, n)[1..] == Burst(k, t, n - 1)
  {
  }

  lemma {:induction false} BurstOrdered(k: Key, t: real, n: nat, start: real, tail: seq<Event>)
    requires start <= t && Ordered(t, tail)
    ensures Ordered(start, Burst(k, t, n) + tail)
    decreases n
  {
    if n == 0 {
      assert Burst(k, t, n) + tail == tail;
    } else {
      BurstTail(k, t, n);
      BurstOrdered(k, t, n - 1, t, tail);
      assert (Burst(k, t, n) + tail)[1..] == Burst(k, t, n - 1) + tail;
    }
  }

  // A bucket in use now with n tokens grants n calls and is left with the rest.
  lemma {:induction false} BurstGranted(c: Config, s: State, k: Key, t: real, n: nat)
    requires t - s.lastEvict <= EVICT_INTERVAL
    requires k in s.buckets && s.buckets[k].last == t && n as real <= s.buckets[k].tokens <= Full(c)
    ensures Answers(c, s, Burst(k, t, n)) == seq(n, _ => true)
    ensures var s' := Final(c, s, Burst(k, t, n));
            s'.lastEvict == s.lastEvict && k in s'.buckets && s'.buckets[k].last == t
    decreases n
  {
    if n > 0 {
      BurstTail(k, t, n);
      var s' := Step(c, s, Allow(k, t));
      AccruedAtOnce(c, t);
      BurstGranted(c, s', k, t, n - 1);
    }
  }

  // A key whose bucket is absent, or about to be swept, is granted a whole burst.
  lemma {:induction false} FullBurstGranted(c: Config, s: State, k: Key, t: real)
    requires c.burst >= 1
    requires k !in Swept(s, t).buckets
    ensures Answers(c, s, Burst(k, t, c.burst)) == seq(c.burst, _ => true)
    ensures var s' := Final(c, s, Burst(k, t, c.burst));
            s'.lastEvict == Swept(s, t).lastEvict && k in s'.buckets && s'.buckets[k].last == t
  {
    BurstTail(k, t, c.burst);
    BurstGranted(c, Step(c, s, Allow(k, t)), k, t, c.burst - 1);
  }

  function IdealFinal(c: Config, m: Ideal, evs: seq<Event>): Ideal
    decreases |evs|
  {
    if evs == [] then m else IdealFinal(c, IdealStep(c, m, evs[0]), evs[1..])
  }

  lemma {:induction false} IdealConcat(c: Config, m: Ideal, a: seq<Event>, b: seq<Event>)
    ensures IdealAnswers(c, m, a + b) == IdealAnswers(c, m, a) + IdealAnswers(c, IdealFinal(c, m, a), b)
    decreases |a|
  {
    if a == [] {
      assert a + b == b;
    } else {
      assert (a + b)[1..] == a[1..] + b;
      IdealConcat(c, IdealStep(c, m, a[0]), a[1..], b);
    }
  }

  // The simple limiter's level falls by one per granted call.
  lemma {:induction false} IdealBurst(c: Config, m: Ideal, k: Key, n: nat)
    requires n as real <= IdealLevel(c, m, k) <= Full(c)
    ensures var m' := IdealFinal(c, m, Burst(k, m.now, n));
            m'.now == m.now && IdealLevel(c, m', k) == IdealLevel(c, m, k) - n as real
    decreases n
  {
    if n > 0 {
      BurstTail(k, m.now, n);
      AccruedAtOnce(c, m.now);
      IdealBurst(c, IdealStep(c, m, Allow(k, m.now)), k, n - 1);
    }
  }

  // With fewer than n tokens at t, the simple limiter refuses one of n calls.
  lemma {:induction false} IdealRefuses(c: Config, m: Ideal, k: Key, t: real, n: nat)
    requires n > 0 && IdealLevel(c, Elapse(c, m, t), k) < n as real
    requires IdealLevel(c, Elapse(c, m, t), k) <= Full(c)
    ensures false in IdealAnswers(c, m, Burst(k, t, n))
    decreases n
  {
    BurstTail(k, t, n);
    var e := Allow(k, t);
    if IdealAnswer(c, m, e) {
      var m' := IdealStep(c, m, e);
      AccruedAtOnce(c, t);
      assert IdealLevel(c, Elapse(c, m', t), k) == IdealLevel(c, Elapse(c, m, t), k) - 1.0;
      IdealRefuses(c, m', k, t, n - 1);
    }
  }

  // A moment past the idle limit at which a drained bucket is not full again.
  lemma {:induction false} StarvedMoment(c: Config) returns (t: real)
    requires c.burst >= 1 && !Refills(c)
    ensures t > IDLE_LIMIT && Accrued(c, 0.0, t) < Full(c)
  {
    if c.rate <= 0.0 {
      t := 601.0;
    } else {
      var q := Full(c) / c.rate;
      assert q * c.rate == Full(c);
      assert Accrued(c, q, IDLE_LIMIT) == IDLE_LIMIT * c.rate - Full(c);
      if q <= IDLE_LIMIT {
        AccruedNonNegative(c, q, IDLE_LIMIT);
      }
      t := (IDLE_LIMIT + q) / 2.0;
      assert Accrued(c, 0.0, t) == (IDLE_LIMIT * c.rate + q * c.rate) / 2.0;
    }
  }

  // Once ten minutes do not refill a drained bucket, draining it twice with a pause of a
  // little more than that tells the two apart.
  lemma {:induction false} StarvedRun(c: Config, k: Key, t: real)
    requires c.burst >= 1 && t > IDLE_LIMIT && Accrued(c, 0.0, t) < Full(c)
    ensures false !in Answers(c, Fresh(0.0), Burst(k, 0.0, c.burst) + Burst(k, t, c.burst))
    ensures false in IdealAnswers(c, Ideal(map[], 0.0), Burst(k, 0.0, c.burst) + Burst(k, t, c.burst))
  {
    var drain, again, m := Burst(k, 0.0, c.burst), Burst(k, t, c.burst), Ideal(map[], 0.0);
    FullBurstGranted(c, Fresh(0.0), k, 0.0);
    FullBurstGranted(c, Final(c, Fresh(0.0), drain), k, t);
    FinalConcat(c, Fresh(0.0), drain, again);
    IdealBurst(c, m, k, c.burst);
    IdealRefuses(c, IdealFinal(c, m, drain), k, t, c.burst);
    IdealConcat(c, m, drain, again);
  }

  lemma {:induction false} NotTransparent(c: Config)
    requires !Refills(c)
    ensures !Transparent(c)
  {
    var k := Address("");
    if c.burst < 1 {
      // An unknown key is let through once even when the ceiling leaves no room for it.
      var evs := [Allow(k, 0.0)];
      assert Ordered(0.0, evs);
      assert Answers(c, Fresh(0.0), evs)[0] && !IdealAnswers(c, Ideal(map[], 0.0), evs)[0];
    } else {
      var t := StarvedMoment(c);
      var drain, again := Burst(k, 0.0, c.burst), Burst(k, t, c.burst);
      BurstOrdered(k, t, c.burst, 0.0, []);
      assert again + [] == again;
      BurstOrdered(k, 0.0, c.burst, 0.0, again);
      StarvedRun(c, k, t);
      assert Answers(c, Fresh(0.0), drain + again) != IdealAnswers(c, Ideal(map[], 0.0), drain + again);
    }
  }

  /** The sweep and the lazy refill are invisible to every caller if and only if the ceiling
      is at least one and ten minutes refill the whole bucket. */
  lemma {:induction false} TransparentExactlyWhenRefilled(c: Config)
    ensures Transparent(c) <==> 1.0 <= Full(c) <= IDLE_LIMIT * c.rate
  {
    if Refills(c) {
      assert Sound(c);
      forall start: real, evs: seq<Event> | Ordered(start, evs)
        ensures Answers(c, Fresh(start), evs) == IdealAnswers(c, Ideal(map[], start), evs)
      {
        RunsAgree(c, Fresh(start), Ideal(map[], start), evs);
      }
    } else {
      NotTransparent(c);
    }
  }

  // With the shipped settings the send and call limiters are transparent and the
  // registration limiter is not.
  lemma {:induction false} DefaultSettings()
    ensures Transparent(Config(120.0 / 60.0, 60))
    ensures Transparent(Config(10.0 / 60.0, 5))
    ensures !Transparent(Config(5.0 / 60.0 / 60.0, 3))
  {
    TransparentExactlyWhenRefilled(Config(120.0 / 60.0, 60));
    TransparentExactlyWhenRefilled(Config(10.0 / 60.0, 5));
    TransparentExactlyWhenRefilled(Config(5.0 / 60.0 / 60.0, 3));
  }
}
