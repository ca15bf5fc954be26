/**
 What every run of the whole relay guarantees, whatever requests arrive and however their
 steps interleave: how often a key can ring devices, which key can reach which device, what
 reaches a provider, what the caller is told, and what its call budget pays for.
 */
module RelaySafety {
  import opened Push
  import opened Send
  import opened Relay
  import Dispatch
  import DispatchRuns
  import KeyStore
  import StoreRuns
  import RateLimit
  import LimiterRuns

  // ---------------------------------------------------------------------------------------
  // The call budget across all requests

  // The call tokens a request has taken and not given back.
  function Owed(q: Request): int {
    q.batch.spent + (if q.phase.Parsing? && q.phase.paid then 1 else 0) - q.refunded
  }

  function Share(q: Request, key: int): int {
    if q.key == key then Owed(q) else 0
  }

  function Total(requests: seq<Request>, key: int): int {
    if requests == [] then 0 else Share(requests[0], key) + Total(requests[1..], key)
  }

  lemma {:induction false} TotalUpdate(requests: seq<Request>, i: nat, q: Request, key: int)
    requires i < |requests|
    ensures Total(requests[i := q], key) == Total(requests, key) - Share(requests[i], key) + Share(q, key)
    decreases i
  {
    if i == 0 {
      assert requests[i := q][1..] == requests[1..];
    } else {
      assert requests[i := q][1..] == requests[1..][i - 1 := q];
      TotalUpdate(requests[1..], i - 1, q, key);
    }
  }

  lemma {:induction false} TotalAppend(requests: seq<Request>, q: Request, key: int)
    ensures Total(requests + [q], key) == Total(requests, key) + Share(q, key)
    decreases |requests|
  {
    if requests != [] {
      assert (requests + [q])[1..] == requests[1..] + [q];
      TotalAppend(requests[1..], q, key);
    }
  }

  // Grants minus Return calls of a stretch of limiter calls, for one key.
  function Net(c: RateLimit.Config, s: RateLimit.State, evs: seq<RateLimit.Event>, key: int): int {
    LimiterRuns.Granted(c, s, evs, CallKey(key)) - LimiterRuns.Returned(evs, CallKey(key))
  }

  ghost predicate Accounted(cfg: Settings, start: real, s: State) {
    && s.limiter == RateLimit.Final(cfg.call, RateLimit.Fresh(start), s.trace)
    && RateLimit.Ordered(start, s.trace)
    && start <= s.clock && RateLimit.EndTime(start, s.trace) <= s.clock
    && forall key :: Net(cfg.call, RateLimit.Fresh(start), s.trace, key) == Total(s.requests, key)
  }

  lemma {:induction false} NetOfOne(c: RateLimit.Config, s: RateLimit.State, e: RateLimit.Event, key: int)
    ensures Net(c, s, [e], key) ==
            if e.key != CallKey(key) then 0
            else if e.Return? then -1
            else if RateLimit.Allowed(c, s, e.key, e.at) then 1 else 0
  {
    LimiterRuns.OneEvent(c, s, e, CallKey(key));
  }

  // Only the call check and the refund change what a request owes.
  lemma {:induction false} OwedSteps()
    ensures forall q :: MayReject(q) ==> Owed(AfterReject(q)) == Owed(q)
    ensures forall q, ok :: MayAsk(q) ==> Owed(AfterBudget(q, ok)) == Owed(q) + if ok then 1 else 0
    ensures forall q, bind, entry :: MayBind(q) ==> Owed(AfterBound(q, bind, entry)) == Owed(q)
    ensures forall q :: MayRefund(q) ==> Owed(AfterRefund(q)) == Owed(q) - if Returns(q) then 1 else 0
  {
  }

  // A step changes what its request owes by exactly what the limiter granted and took back.
  lemma {:induction false} MoverOwes(cfg: Settings, s: State, a: Action, key: int)
    requires Enabled(cfg, s, a) && !a.StoreStep? && !a.Begin?
    ensures Share(Mover(cfg, s, a), key) ==
            Share(s.requests[a.r], key) + Net(cfg.call, s.limiter, Calls(cfg, s, a), key)
  {
    OwedSteps();
    match a
    case AskBudget(r, at) =>
      NetOfOne(cfg.call, s.limiter, RateLimit.Allow(CallKey(s.requests[r].key), at), key);
    case Refund(r, at) =>
      NetOfOne(cfg.call, s.limiter, RateLimit.Return(CallKey(s.requests[r].key), at), key);
    case _ =>
  }

  lemma {:induction false} RequestsOwe(cfg: Settings, s: State, a: Action, key: int)
    requires Enabled(cfg, s, a) && AllParsed(s)
    ensures Total(Apply(cfg, s, a).requests, key) ==
            Total(s.requests, key) + Net(cfg.call, s.limiter, Calls(cfg, s, a), key)
  {
    match a
    case StoreStep(_) =>
    case Begin(k, msgs) => TotalAppend(s.requests, Request(k, msgs, EMPTY_BATCH, [], [], 0, Parsing(0, false)), key);
    case _ =>
      MoverOwes(cfg, s, a, key);
      TotalUpdate(s.requests, a.r, Mover(cfg, s, a), key);
  }

  lemma {:induction false} StepKeepsAccounted(cfg: Settings, start: real, s: State, a: Action)
    requires Enabled(cfg, s, a) && AllParsed(s) && Accounted(cfg, start, s)
    ensures Accounted(cfg, start, Apply(cfg, s, a))
  {
    var evs := Calls(cfg, s, a);
    RateLimit.FinalConcat(cfg.call, RateLimit.Fresh(start), s.trace, evs);
    if evs == [] {
      assert s.trace + evs == s.trace;
    } else {
      LimiterRuns.OrderedExtend(start, s.trace, evs[0]);
    }
    forall key
      ensures Net(cfg.call, RateLimit.Fresh(start), s.trace + evs, key) == Total(Apply(cfg, s, a).requests, key)
    {
      LimiterRuns.GrantedConcat(cfg.call, RateLimit.Fresh(start), s.trace, evs, CallKey(key));
      RequestsOwe(cfg, s, a, key);
    }
  }

  // ---------------------------------------------------------------------------------------
  // All runs

  ghost predicate Inv(cfg: Settings, start: real, s: State) {
    && StoreRuns.Inv(cfg.store, s.store) && s.store.clock <= s.clock
    && RequestsOk(cfg, s) && Accounted(cfg, start, s)
  }

  lemma {:induction false} StepKeepsStore(cfg: Settings, s: State, a: Action)
    requires Enabled(cfg, s, a) && StoreRuns.Inv(cfg.store, s.store) && s.store.clock <= s.clock
    ensures StoreRuns.Inv(cfg.store, Apply(cfg, s, a).store) && Apply(cfg, s, a).store.clock <= Apply(cfg, s, a).clock
  {
    match a
    case StoreStep(step) => StoreRuns.StepKeepsInv(cfg.store, s.store, step);
    case Bind(r, at) =>
      var q := s.requests[r];
      StoreRuns.StepKeepsInv(cfg.store, s.store, StoreRuns.BindCommit(q.key, DeviceOf(q), at));
    case _ =>
  }

  lemma {:induction false} StepKeepsInv(cfg: Settings, start: real, s: State, a: Action)
    requires Enabled(cfg, s, a) && Inv(cfg, start, s)
    ensures Inv(cfg, start, Apply(cfg, s, a))
  {
    StepKeepsStore(cfg, s, a);
    StepKeepsVerified(cfg, s, a);
    StepKeepsBacked(cfg, s, a);
    StepKeepsParsed(cfg, s, a);
    StepKeepsRunning(cfg, s, a);
    StepKeepsEnded(cfg, s, a);
    StepKeepsAccounted(cfg, start, s, a);
  }

  lemma {:induction false} RunKeepsInv(cfg: Settings, start: real, s: State, acts: seq<Action>)
    requires Legal(cfg, s, acts) && Inv(cfg, start, s)
    ensures Inv(cfg, start, Exec(cfg, s, acts))
    decreases |acts|
  {
    if acts != [] {
      StepKeepsInv(cfg, start, s, acts[0]);
      RunKeepsInv(cfg, start, Apply(cfg, s, acts[0]), acts[1..]);
    }
  }

  lemma {:induction false} StartInv(cfg: Settings, tables: KeyStore.Tables, start: real)
    requires StoreRuns.GoodTables(cfg.store, tables, start)
    ensures Inv(cfg, start, Start(tables, start))
  {
  }

  // The relay, started at `start` on a good database, can get to state s.
  ghost predicate Reachable(cfg: Settings, start: real, s: State) {
    exists tables, acts ::
      && StoreRuns.GoodTables(cfg.store, tables, start)
      && Legal(cfg, Start(tables, start), acts) && s == Exec(cfg, Start(tables, start), acts)
  }

  // The joint invariant of limiter, store, pools and requests holds in every reachable state.
  lemma {:induction false} ReachableInv(cfg: Settings, start: real, s: State)
    requires Reachable(cfg, start, s)
    ensures Inv(cfg, start, s)
  {
    var tables, acts :|
      && StoreRuns.GoodTables(cfg.store, tables, start)
      && Legal(cfg, Start(tables, start), acts) && s == Exec(cfg, Start(tables, start), acts);
    StartInv(cfg, tables, start);
    RunKeepsInv(cfg, start, Start(tables, start), acts);
  }

  lemma {:induction false} RunExtend(cfg: Settings, s: State, acts: seq<Action>, a: Action)
    requires Legal(cfg, s, acts) && Enabled(cfg, Exec(cfg, s, acts), a)
    ensures Legal(cfg, s, acts + [a]) && Exec(cfg, s, acts + [a]) == Apply(cfg, Exec(cfg, s, acts), a)
    decreases |acts|
  {
    if acts == [] {
      assert acts + [a] == [a];
    } else {
      assert (acts + [a])[1..] == acts[1..] + [a];
      RunExtend(cfg, Apply(cfg, s, acts[0]), acts[1..], a);
    }
  }

  lemma {:induction false} StepReachable(cfg: Settings, start: real, s: State, a: Action)
    requires Reachable(cfg, start, s) && Enabled(cfg, s, a)
    ensures Reachable(cfg, start, Apply(cfg, s, a))
  {
    var tables, acts :|
      && StoreRuns.GoodTables(cfg.store, tables, start)
      && Legal(cfg, Start(tables, start), acts) && s == Exec(cfg, Start(tables, start), acts);
    RunExtend(cfg, Start(tables, start), acts, a);
  }

  lemma {:induction false} ReachableRequests(cfg: Settings, start: real, s: State)
    requires Reachable(cfg, start, s)
    ensures RequestsOk(cfg, s)
  {
    ReachableInv(cfg, start, s);
  }

  lemma {:induction false} ReachableAccounted(cfg: Settings, start: real, s: State)
    requires Reachable(cfg, start, s)
    ensures Accounted(cfg, start, s)
  {
    ReachableInv(cfg, start, s);
  }

  lemma {:induction false} ReachableExclusive(cfg: Settings, start: real, s: State)
    requires Reachable(cfg, start, s)
    ensures StoreRuns.Exclusive(cfg.store, s.store.log)
  {
    ReachableInv(cfg, start, s);
  }

  // ---------------------------------------------------------------------------------------
  // How often a key can ring devices

  // The items of a request that Send was called with, in order.
  function Contacts(q: Request): seq<Dispatch.Item> {
    if q.phase.Parsing? then [] else q.phase.pool.contacts
  }

  lemma {:induction false} ContactsAreItems(cfg: Settings, q: Request)
    requires Running(cfg, q) && Ended(cfg, q)
    ensures |Contacts(q)| <= |q.batch.items| && Contacts(q) == q.batch.items[..|Contacts(q)|]
    ensures !q.phase.Parsing? ==> |Contacts(q)| == q.phase.pool.next
  {
  }

  // The call messages of one key that were handed to a sender.
  function Rung(q: Request): nat {
    CallsBelow(Contacts(q), |Contacts(q)|)
  }

  function TotalRung(requests: seq<Request>, key: int): nat {
    if requests == [] then 0
    else (if requests[0].key == key then Rung(requests[0]) else 0) + TotalRung(requests[1..], key)
  }

  lemma {:induction false} CallsBelowPrefix(items: seq<Dispatch.Item>, m: nat, n: nat)
    requires n <= m <= |items|
    ensures CallsBelow(items[..m], n) == CallsBelow(items, n)
    decreases n
  {
    if n > 0 {
      CallsBelowPrefix(items, m, n - 1);
    }
  }

  // Refunds never reach into the calls that were sent, and end up returning all the others.
  lemma {:induction false} RefundsLeaveSent(items: seq<Dispatch.Item>, results: seq<Result>, sent: nat, upTo: nat)
    requires MarksUnsent(items, results, sent) && sent <= |items| && upTo <= |items|
    ensures Refunds(items, results, upTo) + CallsBelow(items, sent) <= CallsBelow(items, |items|)
    ensures upTo == |items| ==> Refunds(items, results, upTo) + CallsBelow(items, sent) == CallsBelow(items, |items|)
  {
    RefundsAreUnsentCalls(items, results, sent, upTo);
    CallsBelowMonotone(items, sent, |items|);
    CallsBelowMonotone(items, upTo, |items|);
  }

  // At every moment a request's calls that reached a sender are covered by tokens it holds,
  // and once it is answered it holds those and the ones binding refused, no more.
  lemma {:induction false} RungCovered(cfg: Settings, q: Request)
    requires SpentOk(q.batch) && Running(cfg, q) && Ended(cfg, q) && (q.phase.Parsing? ==> q.refunded == 0)
    ensures Rung(q) <= Owed(q)
    ensures q.phase.Answered? ==> Owed(q) == Rung(q) + q.batch.lost
  {
    ContactsAreItems(cfg, q);
    var items, n := q.batch.items, |Contacts(q)|;
    CallsBelowPrefix(items, n, n);
    if q.phase.Refunding? || q.phase.Answered? {
      SettledMarksUnsent(JobFor(cfg, q.batch), q.phase.pool);
      RefundsLeaveSent(items, q.phase.pool.results, n, UpTo(q));
    } else {
      CallsBelowMonotone(items, n, |items|);
    }
  }

  ghost predicate Covered(q: Request) {
    Rung(q) <= Owed(q) && (q.phase.Answered? ==> Owed(q) == Rung(q) + q.batch.lost)
  }

  lemma {:induction false} AllCovered(cfg: Settings, s: State)
    requires RequestsOk(cfg, s)
    ensures forall i :: 0 <= i < |s.requests| ==> Covered(s.requests[i])
  {
    forall i | 0 <= i < |s.requests|
      ensures Covered(s.requests[i])
    {
      var q := s.requests[i];
      assert Parsed(q) && Running(cfg, q) && Ended(cfg, q);
      ParseOk(q.key, Read(q), q.answers);
      RungCovered(cfg, s.requests[i]);
    }
  }

  lemma {:induction false} TotalCovered(requests: seq<Request>, key: int)
    requires forall i :: 0 <= i < |requests| ==> Covered(requests[i])
    ensures TotalRung(requests, key) <= Total(requests, key)
  {
    if requests != [] {
      assert Covered(requests[0]);
      TotalCovered(requests[1..], key);
    }
  }

  lemma {:induction false} CeilingInState(cfg: Settings, start: real, s: State, key: int)
    requires RequestsOk(cfg, s) && Accounted(cfg, start, s) && RateLimit.Sound(cfg.call)
    ensures var n := LimiterRuns.Evictions(cfg.call, RateLimit.Fresh(start), s.trace, CallKey(key));
            && TotalRung(s.requests, key) as real
               <= RateLimit.Full(cfg.call) + RateLimit.Accrued(cfg.call, start, s.clock)
                  + LimiterRuns.Gains(cfg.call, n)
            && n as real <= 1.0 + (s.clock - start) / RateLimit.IDLE_LIMIT
  {
    AllCovered(cfg, s);
    TotalCovered(s.requests, key);
    assert Net(cfg.call, RateLimit.Fresh(start), s.trace, key) == Total(s.requests, key);
    assert [] + s.trace == s.trace;
    assert RateLimit.Final(cfg.call, RateLimit.Fresh(start), []) == RateLimit.Fresh(start);
    LimiterRuns.WindowBound(cfg.call, start, [], s.trace, CallKey(key), start, s.clock);
  }

  /** In every run of the relay, the call messages of one key that were ever handed to a
      sender number at most burst + rate*T, plus the gain of the sweeps that hit the key's
      bucket, of which there are at most 1 + T/600. */
  lemma {:induction false} CallCeiling(cfg: Settings, start: real, s: State, key: int)
    requires Reachable(cfg, start, s) && RateLimit.Sound(cfg.call)
    ensures var n := LimiterRuns.Evictions(cfg.call, RateLimit.Fresh(start), s.trace, CallKey(key));
            && TotalRung(s.requests, key) as real
               <= RateLimit.Full(cfg.call) + RateLimit.Accrued(cfg.call, start, s.clock)
                  + LimiterRuns.Gains(cfg.call, n)
            && n as real <= 1.0 + (s.clock - start) / RateLimit.IDLE_LIMIT
  {
    ReachableInv(cfg, start, s);
    CeilingInState(cfg, start, s, key);
  }

  /** Once a request is answered, the call tokens it took and kept are exactly those of its
      calls that reached a sender and of its calls that binding refused. */
  lemma {:induction false} AnsweredBudget(cfg: Settings, start: real, s: State, r: nat)
    requires Reachable(cfg, start, s) && r < |s.requests|
    ensures var q := s.requests[r];
            q.phase.Answered? ==> q.batch.spent - q.refunded == Rung(q) + q.batch.lost
  {
    ReachableInv(cfg, start, s);
    AllCovered(cfg, s);
    assert Covered(s.requests[r]);
  }

  // ---------------------------------------------------------------------------------------
  // Which key can reach which device, and with what

  // Contact i of q carries the kept message it came from, unchanged and through the sender
  // of its platform, and rests on an entry of the store's log: q's key passed for the device.
  predicate Rightful(log: seq<StoreRuns.Entry>, q: Request, i: nat)
    requires i < |Contacts(q)|
  {
    var c := Contacts(q)[i];
    && c.slot < |Kept(Read(q))| && Carries(c, Kept(Read(q))[c.slot])
    && i < |q.passes| && q.passes[i] < |log|
    && log[q.passes[i]] == StoreRuns.Passed(q.key, KeyStore.Device(c.platform, c.msg.token), log[q.passes[i]].at)
  }

  lemma {:induction false} ContactRightful(cfg: Settings, log: seq<StoreRuns.Entry>, q: Request, i: nat)
    requires Parsed(q) && Running(cfg, q) && Ended(cfg, q) && Backed(log, q) && i < |Contacts(q)|
    ensures Rightful(log, q, i)
  {
    ContactsAreItems(cfg, q);
    ParseOk(q.key, Read(q), q.answers);
    assert Contacts(q)[i] == q.batch.items[i];
  }

  /** In every run, everything that ever reaches a sender was sent by a key that had passed
      the ownership check for that platform and token, with the caller's kind and payload. */
  lemma {:induction false} ContactsRightful(cfg: Settings, start: real, s: State, r: nat, i: nat)
    requires Reachable(cfg, start, s) && r < |s.requests| && i < |Contacts(s.requests[r])|
    ensures Rightful(s.store.log, s.requests[r], i)
  {
    ReachableInv(cfg, start, s);
    ContactRightful(cfg, s.store.log, s.requests[r], i);
  }

  /** The ownership check lets in whom it should.  A bind step for a device that no row names,
      or that the request's own key owns, gives the current message an item of its own and
      leaves the device with that key, seen in that second; for a device of another key it
      answers forbidden and leaves the tables alone. */
  lemma {:induction false} BindDecides(cfg: Settings, s: State, r: nat, at: real)
    requires Enabled(cfg, s, Bind(r, at))
    ensures var q, s' := s.requests[r], Apply(cfg, s, Bind(r, at));
            var m, d, tokens, b, b' :=
              q.msgs[q.phase.pos], DeviceOf(q), s.store.tables.tokens, q.batch, s'.requests[r].batch;
            && m.platform == PlatformName(d.platform) && m.token == d.token
            && if d !in tokens || tokens[d].owner == q.key then
                 && |b'.items| == |b.items| + 1 && b'.items[..|b.items|] == b.items
                 && b'.items[|b.items|].slot == |b.results| && Carries(b'.items[|b.items|], m)
                 && b'.results == b.results + [UNFILLED]
                 && d in s'.store.tables.tokens && s'.store.tables.tokens[d].owner == q.key
                 && s'.store.tables.tokens[d].lastSeen == at.Floor
               else
                 && b'.items == b.items && b'.results == b.results + [Result(m.token, Forbidden)]
                 && s'.store.tables == s.store.tables
  {
  }

  // The second at which the key of q passed for its contact i.
  function PassedAt(s: State, q: Request, i: nat): int {
    if i < |q.passes| && q.passes[i] < |s.store.log| then s.store.log[q.passes[i]].at else 0
  }

  predicate SameDevice(c1: Dispatch.Item, c2: Dispatch.Item) {
    c1.platform == c2.platform && c1.msg.token == c2.msg.token
  }

  /** In every run, if two different keys ever reach the same device, more than the retention
      lies between the seconds at which they passed for it; with pruning off it never happens. */
  lemma {:induction false} DevicesProtected(cfg: Settings, start: real, s: State, r1: nat, i1: nat, r2: nat, i2: nat)
    requires Reachable(cfg, start, s)
    requires r1 < |s.requests| && i1 < |Contacts(s.requests[r1])|
    requires r2 < |s.requests| && i2 < |Contacts(s.requests[r2])|
    requires SameDevice(Contacts(s.requests[r1])[i1], Contacts(s.requests[r2])[i2])
    requires s.requests[r1].key != s.requests[r2].key
    ensures var at1, at2 := PassedAt(s, s.requests[r1], i1), PassedAt(s, s.requests[r2], i2);
            StoreRuns.Lapsed(cfg.store, at1, at2) || StoreRuns.Lapsed(cfg.store, at2, at1)
  {
    ContactsRightful(cfg, start, s, r1, i1);
    ContactsRightful(cfg, start, s, r2, i2);
    ReachableExclusive(cfg, start, s);
    StoreRuns.EntriesApart(cfg.store, s.store.log, s.requests[r1].passes[i1], s.requests[r2].passes[i2]);
  }

  // ---------------------------------------------------------------------------------------
  // What the caller is told

  /** In every run, an answered request has one result per message with a token, in request
      order, under its own token and with a real status; what the parse loop refused stays
      as it refused it; exactly the items that reached a sender have a status of their own
      sender's; and exactly the calls marked not_attempted were refunded. */
  lemma {:induction false} AnswersComplete(cfg: Settings, start: real, s: State, r: nat)
    requires Reachable(cfg, start, s) && r < |s.requests|
    ensures var q := s.requests[r];
            q.phase.Answered? ==>
              && |q.answers| == |q.msgs| && q.batch == Parse(q.key, q.msgs, q.answers)
              && Complete(Kept(q.msgs), q.batch, q.phase.pool)
              && |Contacts(q)| == q.phase.pool.next <= |q.batch.items|
              && Contacts(q) == q.batch.items[..q.phase.pool.next]
              && Dispatch.InRange(q.batch.items, |q.phase.pool.results|)
              && q.refunded == Refunds(q.batch.items, q.phase.pool.results, |q.batch.items|)
  {
    ReachableInv(cfg, start, s);
    var q := s.requests[r];
    assert Parsed(q) && Running(cfg, q) && Ended(cfg, q);
    if q.phase.Answered? {
      ContactsAreItems(cfg, q);
      ParseOk(q.key, q.msgs, q.answers);
      ResponseComplete(Kept(q.msgs), q.batch, cfg.configured, cfg.concurrency, q.phase.pool);
    }
  }

  // ---------------------------------------------------------------------------------------
  // What the caller may retry

  // The limiter calls a run added.
  function Since(s: State, s': State): seq<RateLimit.Event>
    requires s.trace <= s'.trace
  {
    s'.trace[|s.trace|..]
  }

  // From s to s' request r kept its key, and what it refunded shows in the limiter's calls.
  ghost predicate Shown(s: State, s': State, r: nat) {
    && r < |s.requests| && r < |s'.requests| && s'.requests[r].key == s.requests[r].key
    && s.trace <= s'.trace
    && s'.requests[r].refunded - s.requests[r].refunded
       <= LimiterRuns.Returned(s'.trace, CallKey(s.requests[r].key))
          - LimiterRuns.Returned(s.trace, CallKey(s.requests[r].key))
  }

  lemma {:induction false} RefundShows(cfg: Settings, s: State, a: Action, r: nat)
    requires Enabled(cfg, s, a) && r < |s.requests|
    ensures Shown(s, Apply(cfg, s, a), r)
  {
    var evs, k := Calls(cfg, s, a), CallKey(s.requests[r].key);
    LimiterRuns.GrantedConcat(cfg.call, s.limiter, s.trace, evs, k);
    if a.Refund? && a.r == r && Returns(s.requests[r]) {
      LimiterRuns.OneEvent(cfg.call, s.limiter, evs[0], k);
    }
  }

  lemma {:induction false} RefundsShow(cfg: Settings, s: State, acts: seq<Action>, r: nat)
    requires Legal(cfg, s, acts) && r < |s.requests|
    ensures Shown(s, Exec(cfg, s, acts), r)
    decreases |acts|
  {
    if acts != [] {
      RefundShows(cfg, s, acts[0], r);
      RefundsShow(cfg, Apply(cfg, s, acts[0]), acts[1..], r);
    }
  }

  /** A caller may retry what it was told was not attempted.  In any run, let a request give
      back m call tokens between s1 and s2 while its key asks for no call.  Then each of the
      key's next min(m, burst) call checks after s2 is granted, whatever other keys and the
      store do and however long the caller waits. */
  lemma {:induction false} RetryGranted(cfg: Settings, start: real, s1: State, refund: seq<Action>, s2: State,
                                        later: seq<Action>, s3: State, r: nat, retry: nat, at: real)
    requires Reachable(cfg, start, s3) && RateLimit.Sound(cfg.call)
    requires Legal(cfg, s1, refund) && s2 == Exec(cfg, s1, refund)
    requires Legal(cfg, s2, later) && s3 == Exec(cfg, s2, later)
    requires s1.trace <= s2.trace <= s3.trace
    requires r < |s1.requests| && s1.requests[r].refunded == 0 && r < |s2.requests|
    requires Enabled(cfg, s3, AskBudget(retry, at)) && s3.requests[retry].key == s1.requests[r].key
    requires LimiterRuns.Asked(Since(s1, s2), CallKey(s1.requests[r].key)) == 0
    requires LimiterRuns.Asked(Since(s2, s3), CallKey(s1.requests[r].key)) < s2.requests[r].refunded
    requires LimiterRuns.Asked(Since(s2, s3), CallKey(s1.requests[r].key)) < cfg.call.burst
    ensures Mover(cfg, s3, AskBudget(retry, at)) == AfterBudget(s3.requests[retry], true)
  {
    ReachableAccounted(cfg, start, s3);
    RefundsShow(cfg, s1, refund, r);
    ReturnedSince(cfg, s1, s2, r);
    RetryAllowed(cfg, start, s1, s2, s3, CallKey(s1.requests[r].key), at);
  }

  lemma {:induction false} ReturnedSince(cfg: Settings, s: State, s': State, r: nat)
    requires Shown(s, s', r)
    ensures s'.requests[r].refunded - s.requests[r].refunded
            <= LimiterRuns.Returned(Since(s, s'), CallKey(s.requests[r].key))
  {
    assert s'.trace == s.trace + Since(s, s');
    LimiterRuns.GrantedConcat(cfg.call, s.limiter, s.trace, Since(s, s'), CallKey(s.requests[r].key));
  }

  lemma {:induction false} RetryAllowed(cfg: Settings, start: real, s1: State, s2: State, s3: State,
                                        k: RateLimit.Key, at: real)
    requires RateLimit.Sound(cfg.call) && Accounted(cfg, start, s3) && s3.clock <= at
    requires s1.trace <= s2.trace <= s3.trace && LimiterRuns.Asked(Since(s1, s2), k) == 0
    requires LimiterRuns.Asked(Since(s2, s3), k) < LimiterRuns.Returned(Since(s1, s2), k)
    requires LimiterRuns.Asked(Since(s2, s3), k) < cfg.call.burst
    ensures RateLimit.Allowed(cfg.call, s3.limiter, k, at)
  {
    var c, e := cfg.call, RateLimit.Allow(k, at);
    var refunds, later := Since(s1, s2), Since(s2, s3);
    LimiterRuns.OrderedExtend(start, s3.trace, e);
    assert s3.trace + [e] == s1.trace + (refunds + (later + [e]));
    assert (later + [e])[..|later|] == later;
    LimiterRuns.RetryGuarantee(c, start, s1.trace, refunds, later + [e], k, |later|);
    RateLimit.FinalConcat(c, RateLimit.Fresh(start), s3.trace, [e]);
    assert RateLimit.Answers(c, s3.limiter, [e])[0] == RateLimit.Answer(c, s3.limiter, e);
  }
}
