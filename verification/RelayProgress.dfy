/**
 Every request gets through: it is never stuck, it ends after a bounded number of its own
 steps in any interleaving, and a key that Verify accepts can have any batch answered.
 */
module RelayProgress {
  import opened Push
  import opened Send
  import opened Relay
  import Dispatch
  import DispatchRuns
  import RelaySafety
  import StoreRuns

  // A step of request r itself.
  predicate Own(a: Action, r: nat) {
    !a.StoreStep? && !a.Begin? && a.r == r
  }

  /** In every reachable state, a request that is not answered yet can take a step of its own
      right away, whatever the others are doing, provided a Send that was called can return. */
  lemma {:induction false} NeverStuck(cfg: Settings, start: real, s: State, r: nat) returns (a: Action)
    requires RelaySafety.Reachable(cfg, start, s) && r < |s.requests| && !s.requests[r].phase.Answered?
    ensures Enabled(cfg, s, a) && Own(a, r)
  {
    RelaySafety.ReachableInv(cfg, start, s);
    var q := s.requests[r];
    assert q.key in s.store.sessions && Parsed(q) && Running(cfg, q) && Ended(cfg, q);
    match q.phase
    case Parsing(pos, paid) =>
      if pos == |q.msgs| {
        a := StartSending(r);
      } else if MayReject(q) {
        a := Reject(r);
      } else if MayAsk(q) {
        a := AskBudget(r, s.clock);
      } else {
        a := Bind(r, s.clock);
      }
    case Sending(pool) =>
      if pool.done {
        a := StartRefund(r);
      } else {
        var move := DispatchRuns.Progress(JobFor(cfg, q.batch), pool);
        a := PoolStep(r, move);
      }
    case Refunding(pool, upTo) =>
      a := if upTo == |q.batch.items| then Respond(r) else Refund(r, s.clock);
  }

  // ---------------------------------------------------------------------------------------
  // The work a request still has

  function Work(cfg: Settings, q: Request): int {
    match q.phase
    case Parsing(pos, paid) => 2 * (|q.msgs| - pos) + (if paid then 0 else 1) + 5 * |q.msgs| + 7
    case Sending(pool) =>
      (if pool.next <= |q.batch.items| then DispatchRuns.Measure(JobFor(cfg, q.batch), pool) else 0) + |q.msgs| + 2
    case Refunding(_, upTo) => |q.batch.items| - upTo + 1
    case Answered(_) => 0
  }

  lemma {:induction false} FewItems(key: int, msgs: seq<Incoming>, answers: seq<Answer>)
    requires |msgs| == |answers|
    ensures |Parse(key, msgs, answers).items| <= |msgs|
    decreases |msgs|
  {
    if msgs != [] {
      var n := |msgs| - 1;
      FewItems(key, msgs[..n], answers[..n]);
    }
  }

  lemma {:induction false} StartWork(job: Dispatch.Job)
    ensures DispatchRuns.Measure(job, Dispatch.Start(job)) <= 4 * |job.items| + 4
  {
    DispatchRuns.IdleLoad(Dispatch.PoolSize(job));
  }

  // A request's own step leaves it less to do.
  lemma {:induction false} OwnStepWorks(cfg: Settings, s: State, a: Action)
    requires Enabled(cfg, s, a) && !a.StoreStep? && !a.Begin?
    requires Parsed(s.requests[a.r]) && Running(cfg, s.requests[a.r])
    ensures Work(cfg, Mover(cfg, s, a)) < Work(cfg, s.requests[a.r])
  {
    var q := s.requests[a.r];
    FewItems(q.key, Read(q), q.answers);
    match a
    case StartSending(_) => StartWork(JobFor(cfg, q.batch));
    case PoolStep(_, move) => DispatchRuns.StepLowersMeasure(JobFor(cfg, q.batch), q.phase.pool, move);
    case _ =>
  }

  lemma {:induction false} WorkLeft(cfg: Settings, start: real, s: State, r: nat)
    requires RelaySafety.Reachable(cfg, start, s) && r < |s.requests|
    ensures Work(cfg, s.requests[r]) >= 0
  {
    RelaySafety.ReachableRequests(cfg, start, s);
    var q := s.requests[r];
    assert Parsed(q) && Ended(cfg, q);
  }

  lemma {:induction false} ReachableOwnStepWorks(cfg: Settings, start: real, s: State, a: Action)
    requires RelaySafety.Reachable(cfg, start, s) && Enabled(cfg, s, a) && !a.StoreStep? && !a.Begin?
    ensures Work(cfg, Mover(cfg, s, a)) < Work(cfg, s.requests[a.r])
  {
    RelaySafety.ReachableRequests(cfg, start, s);
    assert Parsed(s.requests[a.r]) && Running(cfg, s.requests[a.r]);
    OwnStepWorks(cfg, s, a);
  }

  lemma {:induction false} StepWorks(cfg: Settings, start: real, s: State, a: Action, r: nat)
    requires RelaySafety.Reachable(cfg, start, s) && Enabled(cfg, s, a) && r < |s.requests|
    ensures r < |Apply(cfg, s, a).requests|
    ensures Work(cfg, Apply(cfg, s, a).requests[r]) + (if Own(a, r) then 1 else 0) <= Work(cfg, s.requests[r])
    ensures var q, q' := s.requests[r], Apply(cfg, s, a).requests[r]; q'.key == q.key && q'.msgs == q.msgs
  {
    if Own(a, r) {
      ReachableOwnStepWorks(cfg, start, s, a);
    }
  }

  // How many of the steps request r took itself.
  function OwnSteps(acts: seq<Action>, r: nat): nat {
    if acts == [] then 0 else (if Own(acts[0], r) then 1 else 0) + OwnSteps(acts[1..], r)
  }

  lemma {:induction false} RunWorks(cfg: Settings, start: real, s: State, acts: seq<Action>, r: nat)
    requires RelaySafety.Reachable(cfg, start, s) && Legal(cfg, s, acts) && r < |s.requests|
    ensures OwnSteps(acts, r) <= Work(cfg, s.requests[r])
    decreases |acts|
  {
    WorkLeft(cfg, start, s, r);
    if acts != [] {
      StepWorks(cfg, start, s, acts[0], r);
      RelaySafety.StepReachable(cfg, start, s, acts[0]);
      RunWorks(cfg, start, Apply(cfg, s, acts[0]), acts[1..], r);
    }
  }

  /** Whatever else goes on, a request of n messages takes at most 7n + 8 steps of its own. */
  lemma {:induction false} EveryRequestEnds(cfg: Settings, start: real, s: State, key: int, msgs: seq<Incoming>,
                                            acts: seq<Action>)
    requires RelaySafety.Reachable(cfg, start, s) && Enabled(cfg, s, Begin(key, msgs))
    requires Legal(cfg, Apply(cfg, s, Begin(key, msgs)), acts)
    ensures OwnSteps(acts, |s.requests|) <= 7 * |msgs| + 8
  {
    RelaySafety.StepReachable(cfg, start, s, Begin(key, msgs));
    RunWorks(cfg, start, Apply(cfg, s, Begin(key, msgs)), acts, |s.requests|);
  }

  // ---------------------------------------------------------------------------------------
  // Being answered

  lemma {:induction false} LegalCons(cfg: Settings, s: State, a: Action, rest: seq<Action>)
    requires Enabled(cfg, s, a) && Legal(cfg, Apply(cfg, s, a), rest)
    ensures Legal(cfg, s, [a] + rest) && Exec(cfg, s, [a] + rest) == Exec(cfg, Apply(cfg, s, a), rest)
  {
    assert ([a] + rest)[1..] == rest;
  }

  // A step of request r that brings it nearer to its answer.
  lemma {:induction false} StepNearer(cfg: Settings, start: real, s: State, r: nat) returns (a: Action, s': State)
    requires RelaySafety.Reachable(cfg, start, s) && r < |s.requests| && !s.requests[r].phase.Answered?
    ensures Enabled(cfg, s, a) && Own(a, r) && s' == Apply(cfg, s, a) && RelaySafety.Reachable(cfg, start, s')
    ensures r < |s'.requests| && 0 <= Work(cfg, s'.requests[r]) < Work(cfg, s.requests[r])
    ensures s'.requests[r].key == s.requests[r].key && s'.requests[r].msgs == s.requests[r].msgs
  {
    a := NeverStuck(cfg, start, s, r);
    s' := Apply(cfg, s, a);
    StepWorks(cfg, start, s, a, r);
    RelaySafety.StepReachable(cfg, start, s, a);
    WorkLeft(cfg, start, s', r);
  }

  // Steps of request r alone lead from s to s', where it is answered.
  ghost predicate Finishes(cfg: Settings, s: State, acts: seq<Action>, s': State, r: nat) {
    && Legal(cfg, s, acts) && s' == Exec(cfg, s, acts)
    && (forall i :: 0 <= i < |acts| ==> Own(acts[i], r))
    && r < |s'.requests| && s'.requests[r].phase.Answered?
  }

  lemma {:induction false} FinishesCons(cfg: Settings, s: State, a: Action, rest: seq<Action>, s': State, r: nat)
    requires Enabled(cfg, s, a) && Own(a, r) && Finishes(cfg, Apply(cfg, s, a), rest, s', r)
    ensures Finishes(cfg, s, [a] + rest, s', r)
  {
    LegalCons(cfg, s, a, rest);
  }

  lemma {:induction false} CanFinish(cfg: Settings, start: real, s: State, r: nat)
    returns (acts: seq<Action>, s': State)
    requires RelaySafety.Reachable(cfg, start, s) && r < |s.requests|
    ensures Finishes(cfg, s, acts, s', r)
    ensures s'.requests[r].key == s.requests[r].key && s'.requests[r].msgs == s.requests[r].msgs
    decreases Work(cfg, s.requests[r])
  {
    if s.requests[r].phase.Answered? {
      acts, s' := [], s;
    } else {
      var a, next := StepNearer(cfg, start, s, r);
      var rest;
      rest, s' := CanFinish(cfg, start, next, r);
      acts := [a] + rest;
      FinishesCons(cfg, s, a, rest, s', r);
    }
  }

  // Verify accepts key id in state s, and then it may begin the batch.
  ghost predicate Begins(cfg: Settings, s: State, id: int, msgs: seq<Incoming>, s': State) {
    var verify, begin := StoreStep(StoreRuns.VerifyKey(id, s.clock)), Begin(id, msgs);
    && Enabled(cfg, s, verify) && Enabled(cfg, Apply(cfg, s, verify), begin)
    && s' == Apply(cfg, Apply(cfg, s, verify), begin)
  }

  lemma {:induction false} UsableKeyBegins(cfg: Settings, start: real, s: State, id: int, msgs: seq<Incoming>)
    returns (s': State)
    requires RelaySafety.Reachable(cfg, start, s) && |msgs| <= cfg.maxMessages
    requires id in s.store.tables.keys && s.store.tables.keys[id].revokedAt == None
    ensures Begins(cfg, s, id, msgs, s') && RelaySafety.Reachable(cfg, start, s')
    ensures |s'.requests| == |s.requests| + 1
    ensures s'.requests[|s.requests|].key == id && s'.requests[|s.requests|].msgs == msgs
  {
    var verify, begin := StoreStep(StoreRuns.VerifyKey(id, s.clock)), Begin(id, msgs);
    RelaySafety.ReachableInv(cfg, start, s);
    RelaySafety.StepReachable(cfg, start, s, verify);
    RelaySafety.StepReachable(cfg, start, Apply(cfg, s, verify), begin);
    s' := Apply(cfg, Apply(cfg, s, verify), begin);
  }

  /** A key that is not revoked is served: in every reachable state Verify accepts it, it may
      then begin any batch up to the size limit, and that request can run to its answer
      without waiting for anyone else. */
  lemma {:induction false} UsableKeyIsServed(cfg: Settings, start: real, s: State, id: int, msgs: seq<Incoming>)
    returns (begun: State, acts: seq<Action>, answered: State)
    requires RelaySafety.Reachable(cfg, start, s) && |msgs| <= cfg.maxMessages
    requires id in s.store.tables.keys && s.store.tables.keys[id].revokedAt == None
    ensures Begins(cfg, s, id, msgs, begun) && Finishes(cfg, begun, acts, answered, |s.requests|)
    ensures answered.requests[|s.requests|].key == id && answered.requests[|s.requests|].msgs == msgs
  {
    begun := UsableKeyBegins(cfg, start, s, id, msgs);
    acts, answered := CanFinish(cfg, start, begun, |s.requests|);
  }
}
