/**
 What every run of one limiter keeps: how much any key can spend in any window, what a
 refund is worth later, and how long a bucket is remembered.
 */
module LimiterRuns {
  import opened RateLimit

  // ---------------------------------------------------------------------------------------
  // What a run did to one key

  function Granted(c: Config, s: State, evs: seq<Event>, k: Key): nat
    decreases |evs|
  {
    if evs == [] then 0
    else (if Grants(c, s, evs[0], k) then 1 else 0) + Granted(c, Step(c, s, evs[0]), evs[1..], k)
  }

  // The number of Return calls for k.
  function Returned(evs: seq<Event>, k: Key): nat {
    if evs == [] then 0
    else (if evs[0] == Return(k, evs[0].at) then 1 else 0) + Returned(evs[1..], k)
  }

  // The number of Allow calls for k, granted or not.
  function Asked(evs: seq<Event>, k: Key): nat {
    if evs == [] then 0
    else (if evs[0] == Allow(k, evs[0].at) then 1 else 0) + Asked(evs[1..], k)
  }

  function Evictions(c: Config, s: State, evs: seq<Event>, k: Key): nat
    decreases |evs|
  {
    if evs == [] then 0
    else (if Evicts(s, evs[0], k) then 1 else 0) + Evictions(c, Step(c, s, evs[0]), evs[1..], k)
  }

  // What the Return calls for k really gave back: a Return under the ceiling gives a whole
  // token, one at the ceiling gives what still fits.
  function Credited(c: Config, s: State, evs: seq<Event>, k: Key): real
    decreases |evs|
  {
    if evs == [] then 0.0
    else Credit(c, s, evs[0], k) + Credited(c, Step(c, s, evs[0]), evs[1..], k)
  }

  function Credit(c: Config, s: State, e: Event, k: Key): real {
    if e == Return(k, e.at) then Level(c, Step(c, s, e), k, e.at) - Level(c, s, k, e.at) else 0.0
  }

  // What one sweep can hand to a key on top of the ordinary refill.
  function SweepGain(c: Config): real {
    Full(c) - IdleLevel(c)
  }

  function Gains(c: Config, sweeps: nat): real {
    sweeps as real * SweepGain(c)
  }

  lemma {:induction false} GainsAdd(c: Config, a: nat, b: nat)
    ensures Gains(c, a + b) == Gains(c, a) + Gains(c, b)
  {
    assert (a + b) as real * SweepGain(c) == a as real * SweepGain(c) + b as real * SweepGain(c);
  }

  // ---------------------------------------------------------------------------------------
  // The spending bound

  lemma {:induction false} StepSpends(c: Config, s: State, e: Event, k: Key, now: real)
    requires Sound(c) && Valid(c, s, now) && now <= e.at
    ensures (if Grants(c, s, e, k) then 1.0 else 0.0) - Credit(c, s, e, k)
         <= Level(c, s, k, now) - Level(c, Step(c, s, e), k, e.at) + Accrued(c, now, e.at)
            + Gains(c, if Evicts(s, e, k) then 1 else 0)
    ensures 0.0 <= Credit(c, s, e, k) <= if e == Return(k, e.at) then 1.0 else 0.0
  {
    StepLevel(c, s, e, k, now);
    LevelCompose(c, s, k, now, e.at);
    if Evicts(s, e, k) {
      EvictedLevel(c, s, e, k, now);
    }
  }

  // The amortised form: spending is paid for by the level, the refill and the sweeps.
  lemma {:induction false} RunSpends(c: Config, s: State, evs: seq<Event>, k: Key, now: real)
    requires Sound(c) && Valid(c, s, now) && Ordered(now, evs)
    ensures Granted(c, s, evs, k) as real - Credited(c, s, evs, k)
         <= Level(c, s, k, now) - Level(c, Final(c, s, evs), k, EndTime(now, evs))
            + Accrued(c, now, EndTime(now, evs)) + Gains(c, Evictions(c, s, evs, k))
    ensures 0.0 <= Credited(c, s, evs, k) <= Returned(evs, k) as real
    decreases |evs|
  {
    if evs != [] {
      var e, rest, s' := evs[0], evs[1..], Step(c, s, evs[0]);
      StepSpends(c, s, e, k, now);
      StepKeepsValid(c, s, e, now);
      RunSpends(c, s', rest, k, e.at);
      var end := EndTime(e.at, rest);
      assert end == EndTime(now, evs);
      AccruedAdds(c, now, e.at, end);
      GainsAdd(c, if Evicts(s, e, k) then 1 else 0, Evictions(c, s', rest, k));
    }
  }

  // Where the idle clock of k starts: its bucket's last use, or now when it has none.
  function Anchor(s: State, k: Key, now: real): real {
    if k in s.buckets then s.buckets[k].last else now
  }

  lemma {:induction false} EvictionsFromAnchor(c: Config, s: State, evs: seq<Event>, k: Key, now: real)
    requires Sound(c) && Valid(c, s, now) && Ordered(now, evs)
    ensures IDLE_LIMIT * Evictions(c, s, evs, k) as real <= EndTime(now, evs) - Anchor(s, k, now)
    decreases |evs|
  {
    RunKeepsValid(c, s, evs, now);
    if evs != [] {
      StepKeepsValid(c, s, evs[0], now);
      EvictionsFromAnchor(c, Step(c, s, evs[0]), evs[1..], k, evs[0].at);
    }
  }

  // Two sweeps of one key are more than ten minutes apart, so a window holds few of them.
  lemma {:induction false} EvictionsInWindow(c: Config, s: State, evs: seq<Event>, k: Key, now: real)
    requires Sound(c) && Valid(c, s, now) && Ordered(now, evs)
    ensures IDLE_LIMIT * (Evictions(c, s, evs, k) as real - 1.0) <= EndTime(now, evs) - now
    decreases |evs|
  {
    RunKeepsValid(c, s, evs, now);
    if evs != [] {
      var s' := Step(c, s, evs[0]);
      StepKeepsValid(c, s, evs[0], now);
      EvictionsFromAnchor(c, s', evs[1..], k, evs[0].at);
      EvictionsInWindow(c, s', evs[1..], k, evs[0].at);
    }
  }

  /** For every run of a new limiter and every window of it, the net spending of one key is
      at most burst + rate*T plus the gain of the sweeps that hit the key, of which there are
      at most 1 + T/600. */
  lemma {:induction false} WindowBound(c: Config, start: real, before: seq<Event>, window: seq<Event>, k: Key,
                                       from: real, to: real)
    requires Sound(c) && Ordered(start, before + window)
    requires EndTime(start, before) <= from <= to
    requires window != [] ==> from <= window[0].at && EndTime(from, window) <= to
    ensures var s := Final(c, Fresh(start), before);
            var n := Evictions(c, s, window, k);
            && Granted(c, s, window, k) as real - Credited(c, s, window, k)
               <= Full(c) + Accrued(c, from, to) + Gains(c, n)
            && n as real <= 1.0 + (to - from) / IDLE_LIMIT
            && 0.0 <= Credited(c, s, window, k) <= Returned(window, k) as real
  {
    var s := Final(c, Fresh(start), before);
    OrderedConcat(start, before, window);
    RunKeepsValid(c, Fresh(start), before, start);
    assert Ordered(from, window);
    RunSpends(c, s, window, k, from);
    EvictionsInWindow(c, s, window, k, from);
    RunKeepsValid(c, s, window, from);
    LevelInRange(c, s, k, from);
    var end := EndTime(from, window);
    LevelInRange(c, Final(c, s, window), k, end);
    AccruedAdds(c, from, end, to);
    AccruedNonNegative(c, end, to);
  }

  lemma {:induction false} LevelInRange(c: Config, s: State, k: Key, now: real)
    requires Sound(c) && Valid(c, s, now)
    ensures 0.0 <= Level(c, s, k, now) <= Full(c)
  {
    if k in s.buckets {
      RefilledInRange(c, s.buckets[k], now);
    }
  }

  // A sweep gives nothing away exactly when ten minutes refill the whole bucket.
  lemma {:induction false} SweepGainIsShortfall(c: Config)
    ensures SweepGain(c) == if Full(c) <= IDLE_LIMIT * c.rate then 0.0 else Full(c) - IDLE_LIMIT * c.rate
  {
  }

  // ---------------------------------------------------------------------------------------
  // What a refund is worth later

  // With n tokens in hand, a key's next n Allow calls pass, whatever else happens.
  lemma {:induction false} HeldTokensAreGranted(c: Config, s: State, evs: seq<Event>, k: Key, n: nat, now: real, i: nat)
    requires Sound(c) && Valid(c, s, now) && Ordered(now, evs)
    requires Level(c, s, k, now) >= n as real
    requires i < |evs| && evs[i] == Allow(k, evs[i].at) && Asked(evs[..i], k) < n
    ensures Answers(c, s, evs)[i]
    decreases |evs|
  {
    var e := evs[0];
    StepLevel(c, s, e, k, now);
    LevelCompose(c, s, k, now, e.at);
    if i > 0 {
      StepKeepsValid(c, s, e, now);
      assert evs[..i][1..] == evs[1..][..i - 1];
      var left := if e == Allow(k, e.at) then n - 1 else n;
      HeldTokensAreGranted(c, Step(c, s, e), evs[1..], k, left, e.at, i - 1);
    }
  }

  // m Return calls leave at least min(m, burst) tokens, even on a bucket that was drained
  // or swept in between, if the key spends nothing meanwhile.
  lemma {:induction false} ReturnsAreHeld(c: Config, s: State, evs: seq<Event>, k: Key, held: real, now: real)
    requires Sound(c) && Valid(c, s, now) && Ordered(now, evs) && Asked(evs, k) == 0
    requires Level(c, s, k, now) >= Min(Full(c), held)
    ensures Level(c, Final(c, s, evs), k, EndTime(now, evs)) >= Min(Full(c), held + Returned(evs, k) as real)
    decreases |evs|
  {
    if evs != [] {
      var e := evs[0];
      StepLevel(c, s, e, k, now);
      LevelCompose(c, s, k, now, e.at);
      StepKeepsValid(c, s, e, now);
      var held' := if e == Return(k, e.at) then held + 1.0 else held;
      ReturnsAreHeld(c, Step(c, s, e), evs[1..], k, held', e.at);
    }
  }

  lemma {:induction false} RetryFromState(c: Config, s: State, refunds: seq<Event>, later: seq<Event>, k: Key,
                                          now: real, i: nat)
    requires Sound(c) && Valid(c, s, now) && Ordered(now, refunds) && Ordered(EndTime(now, refunds), later)
    requires Asked(refunds, k) == 0
    requires i < |later| && later[i] == Allow(k, later[i].at)
    requires Asked(later[..i], k) < Returned(refunds, k) && Asked(later[..i], k) < c.burst
    ensures Answers(c, Final(c, s, refunds), later)[i]
  {
    LevelInRange(c, s, k, now);
    ReturnsAreHeld(c, s, refunds, k, 0.0, now);
    RunKeepsValid(c, s, refunds, now);
    HeldTokensAreGranted(c, Final(c, s, refunds), later, k, Asked(later[..i], k) + 1, EndTime(now, refunds), i);
  }

  /** After m Return calls for k, with any traffic of other keys before, between and after
      them and any amount of time passing, each of the next min(m, burst) Allow calls for k
      is answered yes. */
  lemma {:induction false} RetryGuarantee(c: Config, start: real, before: seq<Event>, refunds: seq<Event>,
                                          later: seq<Event>, k: Key, i: nat)
    requires Sound(c) && Ordered(start, before + (refunds + later))
    requires Asked(refunds, k) == 0
    requires i < |later| && later[i] == Allow(k, later[i].at)
    requires Asked(later[..i], k) < Returned(refunds, k) && Asked(later[..i], k) < c.burst
    ensures Answers(c, Fresh(start), before + (refunds + later))[|before| + |refunds| + i]
  {
    OrderedConcat(start, before, refunds + later);
    var s, now := Final(c, Fresh(start), before), EndTime(start, before);
    OrderedConcat(now, refunds, later);
    RunKeepsValid(c, Fresh(start), before, start);
    RetryFromState(c, s, refunds, later, k, now, i);
    FinalConcat(c, Fresh(start), before, refunds + later);
    FinalConcat(c, s, refunds, later);
  }

  // ---------------------------------------------------------------------------------------
  // How long a bucket is remembered

  // A bucket in the map was put there, with that time of use, by an Allow of the run.
  lemma {:induction false} BucketComesFromAllow(c: Config, s: State, evs: seq<Event>, k: Key)
    requires k in Final(c, s, evs).buckets
    ensures var last := Final(c, s, evs).buckets[k].last;
            || (k in s.buckets && s.buckets[k].last == last)
            || Allow(k, last) in evs
    decreases |evs|
  {
    if evs != [] {
      BucketComesFromAllow(c, Step(c, s, evs[0]), evs[1..], k);
    }
  }

  /** Right after any Allow, the map holds only keys that some Allow named in the preceding
      fifteen minutes. */
  lemma {:induction false} MapHoldsRecentKeysOnly(c: Config, start: real, evs: seq<Event>, last: Event, k: Key)
    requires Sound(c) && Ordered(start, evs + [last]) && last.Allow?
    requires k in Final(c, Fresh(start), evs + [last]).buckets
    ensures exists t :: last.at - 900.0 <= t <= last.at && Allow(k, t) in evs + [last]
  {
    var s := Final(c, Fresh(start), evs);
    RunKeepsValid(c, Fresh(start), evs + [last], start);
    FinalConcat(c, Fresh(start), evs, [last]);
    var s' := Step(c, s, last);
    assert Final(c, s, [last]) == s';
    BucketComesFromAllow(c, Fresh(start), evs + [last], k);
    assert s'.buckets[k].last >= last.at - EVICT_INTERVAL - IDLE_LIMIT;
    assert Allow(k, s'.buckets[k].last) in evs + [last];
  }

  // The time of k's latest Allow in the run, or `last` if there is none.
  function LatestAsk(last: real, evs: seq<Event>, k: Key): real
    decreases |evs|
  {
    if evs == [] then last
    else LatestAsk(if evs[0] == Allow(k, evs[0].at) then evs[0].at else last, evs[1..], k)
  }

  // No event comes more than ten minutes after k's latest Allow, granted or refused.
  predicate KeepsAsking(last: real, evs: seq<Event>, k: Key)
    decreases |evs|
  {
    evs != [] ==>
      && evs[0].at - last <= 600.0
      && KeepsAsking(if evs[0] == Allow(k, evs[0].at) then evs[0].at else last, evs[1..], k)
  }

  /** A remembered bucket's last use is the latest Allow of its key, granted or refused. */
  lemma {:induction false} LastUseIsLatestAsk(c: Config, s: State, evs: seq<Event>, k: Key, last: real)
    requires k in s.buckets ==> s.buckets[k].last == last
    ensures k in Final(c, s, evs).buckets ==> Final(c, s, evs).buckets[k].last == LatestAsk(last, evs, k)
    decreases |evs|
  {
    if evs != [] {
      var last' := if evs[0] == Allow(k, evs[0].at) then evs[0].at else last;
      LastUseIsLatestAsk(c, Step(c, s, evs[0]), evs[1..], k, last');
    }
  }

  /** A key that keeps asking is never forgotten, however often it is refused. */
  lemma {:induction false} AskingIsRemembered(c: Config, s: State, evs: seq<Event>, k: Key, last: real)
    requires k in s.buckets && s.buckets[k].last == last && KeepsAsking(last, evs, k)
    ensures Evictions(c, s, evs, k) == 0 && k in Final(c, s, evs).buckets
    decreases |evs|
  {
    if evs != [] {
      var last' := if evs[0] == Allow(k, evs[0].at) then evs[0].at else last;
      AskingIsRemembered(c, Step(c, s, evs[0]), evs[1..], k, last');
    }
  }

  /** In every run of a new limiter, from any Allow of k on and for as long as k keeps asking,
      k spends, net of refunds and that first Allow included, at most burst + rate*T: no sweep
      gives it anything. */
  lemma {:induction false} AskingBound(c: Config, start: real, before: seq<Event>, k: Key, t0: real,
                                       window: seq<Event>)
    requires Sound(c) && Ordered(start, before + ([Allow(k, t0)] + window)) && KeepsAsking(t0, window, k)
    ensures var s, run := Final(c, Fresh(start), before), [Allow(k, t0)] + window;
            && Evictions(c, Step(c, s, Allow(k, t0)), window, k) == 0
            && Granted(c, s, run, k) as real - Credited(c, s, run, k)
               <= Full(c) + Accrued(c, t0, EndTime(t0, window))
  {
    var s, first := Final(c, Fresh(start), before), Allow(k, t0);
    OrderedConcat(start, before, [first] + window);
    RunKeepsValid(c, Fresh(start), before, start);
    var now, s' := EndTime(start, before), Step(c, s, first);
    assert ([first] + window)[1..] == window;
    StepLevel(c, s, first, k, now);
    StepKeepsValid(c, s, first, now);
    AskingIsRemembered(c, s', window, k, t0);
    RunSpends(c, s', window, k, t0);
    RunKeepsValid(c, s', window, t0);
    LevelInRange(c, Final(c, s', window), k, EndTime(t0, window));
    assert Gains(c, 0) == 0.0;
  }

  // ---------------------------------------------------------------------------------------
  // Extending a run by one event

  lemma {:induction false} GrantedConcat(c: Config, s: State, a: seq<Event>, b: seq<Event>, k: Key)
    ensures Granted(c, s, a + b, k) == Granted(c, s, a, k) + Granted(c, Final(c, s, a), b, k)
    ensures Returned(a + b, k) == Returned(a, k) + Returned(b, k)
    decreases |a|
  {
    if a == [] {
      assert a + b == b;
    } else {
      assert (a + b)[1..] == a[1..] + b;
      GrantedConcat(c, Step(c, s, a[0]), a[1..], b, k);
    }
  }

  lemma {:induction false} OrderedExtend(start: real, a: seq<Event>, e: Event)
    requires Ordered(start, a) && EndTime(start, a) <= e.at
    ensures Ordered(start, a + [e])
    decreases |a|
  {
    if a != [] {
      assert (a + [e])[1..] == a[1..] + [e];
      OrderedExtend(a[0].at, a[1..], e);
    }
  }

  lemma {:induction false} OneEvent(c: Config, s: State, e: Event, k: Key)
    ensures Granted(c, s, [e], k) == if Grants(c, s, e, k) then 1 else 0
    ensures Returned([e], k) == if e.Return? && e.key == k then 1 else 0
  {
    assert [e][1..] == [];
  }
}
