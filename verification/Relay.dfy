/**
 The whole relay: any number of /v1/send requests in flight at once, sharing the call
 limiter and the key store, each with a worker pool of its own.  A request is the parse
 loop, the pool, the refund loop and the answer; every access to shared state is one step,
 and the steps of all requests interleave freely with each other and with the store's own.
 */
module Relay {
  import opened Push
  import opened Send
  import Dispatch
  import DispatchRuns
  import KeyStore
  import StoreRuns
  import RateLimit
  import LimiterRuns

  datatype Settings = Settings(
    store: StoreRuns.Settings,
    call: RateLimit.Config,
    configured: set<Platform>,
    concurrency: int,
    maxMessages: int)

  // Parsing(pos, paid): before message pos; `paid` once a call has passed the call limiter.
  datatype Phase =
    | Parsing(pos: nat, paid: bool)
    | Sending(pool: Dispatch.Pool)
    | Refunding(pool: Dispatch.Pool, upTo: nat)
    | Answered(pool: Dispatch.Pool)

  // `answers`, `passes` and `refunded` are history: what the limiter and the store answered
  // for each message, the store's log entry behind each item, and the Return calls made.
  datatype Request = Request(
    key: int,
    msgs: seq<Incoming>,
    batch: Batch,
    answers: seq<Answer>,
    passes: seq<nat>,
    refunded: nat,
    phase: Phase)

  // `trace` is history: every call of the call limiter.
  datatype State = State(
    clock: real,
    store: StoreRuns.System,
    limiter: RateLimit.State,
    trace: seq<RateLimit.Event>,
    requests: seq<Request>)

  datatype Action =
    | StoreStep(step: StoreRuns.Action)
    | Begin(key: int, msgs: seq<Incoming>)
    | Reject(r: nat)
    | AskBudget(r: nat, at: real)
    | Bind(r: nat, at: real)
    | BindFails(r: nat)
    | StartSending(r: nat)
    | PoolStep(r: nat, move: Dispatch.Action)
    | StartRefund(r: nat)
    | Refund(r: nat, at: real)
    | Respond(r: nat)

  function Start(tables: KeyStore.Tables, now: real): State {
    State(now, StoreRuns.Opened(tables, now), RateLimit.Fresh(now), [], [])
  }

  function CallKey(key: int): RateLimit.Key {
    RateLimit.Registration(key)
  }

  function JobFor(cfg: Settings, b: Batch): Dispatch.Job {
    JobOf(b, cfg.configured, cfg.concurrency)
  }

  // ---------------------------------------------------------------------------------------
  // Steps of one request

  predicate AtMessage(q: Request) {
    q.phase.Parsing? && q.phase.pos < |q.msgs|
  }

  function Current(q: Request): Verdict
    requires AtMessage(q)
  {
    Classify(q.msgs[q.phase.pos])
  }

  predicate MayReject(q: Request) {
    AtMessage(q) && !q.phase.paid && !Current(q).Ready?
  }

  predicate MayAsk(q: Request) {
    AtMessage(q) && !q.phase.paid && Current(q).Ready? && Current(q).kind.CallKind?
  }

  predicate MayBind(q: Request) {
    AtMessage(q) && Current(q).Ready? && (q.phase.paid <==> Current(q).kind.CallKind?)
  }

  function DeviceOf(q: Request): KeyStore.Device
    requires AtMessage(q) && Current(q).Ready?
  {
    KeyStore.Device(Current(q).platform, q.msgs[q.phase.pos].token)
  }

  // The parse loop takes in the current message with its answer and moves on.
  function Advance(q: Request, a: Answer): Request
    requires AtMessage(q)
  {
    q.(batch := Absorb(q.key, q.batch, q.msgs[q.phase.pos], a),
       answers := q.answers + [a],
       phase := Parsing(q.phase.pos + 1, false))
  }

  function AfterReject(q: Request): Request
    requires MayReject(q)
  {
    Advance(q, Answer(false, BindFailed))
  }

  function AfterBudget(q: Request, ok: bool): Request
    requires MayAsk(q)
  {
    if ok then q.(phase := Parsing(q.phase.pos, true))
    else Advance(q, Answer(false, BindFailed))
  }

  function AfterBound(q: Request, bind: BindAnswer, entry: nat): Request
    requires MayBind(q)
  {
    Advance(q, Answer(true, bind)).(passes := if bind == OwnedBy(q.key) then q.passes + [entry] else q.passes)
  }

  predicate MayMove(cfg: Settings, q: Request, move: Dispatch.Action) {
    && q.phase.Sending? && Dispatch.Enabled(JobFor(cfg, q.batch), q.phase.pool, move)
    && (move.Finish? ==> ProviderAnswer(move.out))
  }

  function AfterMove(cfg: Settings, q: Request, move: Dispatch.Action): Request
    requires MayMove(cfg, q, move)
  {
    q.(phase := Sending(Dispatch.Apply(JobFor(cfg, q.batch), q.phase.pool, move)))
  }

  predicate MayRefund(q: Request) {
    && q.phase.Refunding? && q.phase.upTo < |q.batch.items|
    && q.batch.items[q.phase.upTo].slot < |q.phase.pool.results|
  }

  predicate Returns(q: Request)
    requires MayRefund(q)
  {
    Refundable(q.batch.items[q.phase.upTo], q.phase.pool.results)
  }

  function AfterRefund(q: Request): Request
    requires MayRefund(q)
  {
    q.(phase := Refunding(q.phase.pool, q.phase.upTo + 1), refunded := q.refunded + if Returns(q) then 1 else 0)
  }

  // ---------------------------------------------------------------------------------------
  // Steps of the relay

  predicate Enabled(cfg: Settings, s: State, a: Action) {
    match a
    case StoreStep(step) =>
      !step.BindCommit? && s.clock <= step.at && StoreRuns.Enabled(cfg.store, s.store, step)
    case Begin(key, msgs) => key in s.store.sessions && |msgs| <= cfg.maxMessages
    case Reject(r) => r < |s.requests| && MayReject(s.requests[r])
    case AskBudget(r, at) => r < |s.requests| && MayAsk(s.requests[r]) && s.clock <= at
    case Bind(r, at) =>
      && r < |s.requests| && MayBind(s.requests[r]) && s.clock <= at
      && StoreRuns.Enabled(cfg.store, s.store, StoreRuns.BindCommit(s.requests[r].key, DeviceOf(s.requests[r]), at))
    case BindFails(r) => r < |s.requests| && MayBind(s.requests[r])
    case StartSending(r) =>
      r < |s.requests| && s.requests[r].phase == Parsing(|s.requests[r].msgs|, false)
    case PoolStep(r, move) => r < |s.requests| && MayMove(cfg, s.requests[r], move)
    case StartRefund(r) =>
      r < |s.requests| && s.requests[r].phase.Sending? && s.requests[r].phase.pool.done
    case Refund(r, at) => r < |s.requests| && MayRefund(s.requests[r]) && s.clock <= at
    case Respond(r) =>
      r < |s.requests| && s.requests[r].phase.Refunding? && s.requests[r].phase.upTo == |s.requests[r].batch.items|
  }

  // What the limiter is asked in a step, if anything.
  function Calls(cfg: Settings, s: State, a: Action): seq<RateLimit.Event>
    requires Enabled(cfg, s, a)
  {
    match a
    case AskBudget(r, at) => [RateLimit.Allow(CallKey(s.requests[r].key), at)]
    case Refund(r, at) => if Returns(s.requests[r]) then [RateLimit.Return(CallKey(s.requests[r].key), at)] else []
    case _ => []
  }

  // The request that takes the step, after it.
  function Mover(cfg: Settings, s: State, a: Action): Request
    requires Enabled(cfg, s, a) && !a.StoreStep? && !a.Begin?
  {
    var q := s.requests[a.r];
    match a
    case Reject(_) => AfterReject(q)
    case AskBudget(_, at) => AfterBudget(q, RateLimit.Allowed(cfg.call, s.limiter, CallKey(q.key), at))
    case Bind(_, _) =>
      AfterBound(q, OwnedBy(KeyStore.OwnerAfterBind(s.store.tables, q.key, DeviceOf(q))), |s.store.log|)
    case BindFails(_) => AfterBound(q, BindFailed, |s.store.log|)
    case StartSending(_) => q.(phase := Sending(Dispatch.Start(JobFor(cfg, q.batch))))
    case PoolStep(_, move) => AfterMove(cfg, q, move)
    case StartRefund(_) => q.(phase := Refunding(q.phase.pool, 0))
    case Refund(_, _) => AfterRefund(q)
    case Respond(_) => q.(phase := Answered(q.phase.pool))
  }

  function StoreAfter(cfg: Settings, s: State, a: Action): StoreRuns.System
    requires Enabled(cfg, s, a)
  {
    match a
    case StoreStep(step) => StoreRuns.Apply(cfg.store, s.store, step)
    case Bind(r, at) =>
      var q := s.requests[r];
      StoreRuns.Apply(cfg.store, s.store, StoreRuns.BindCommit(q.key, DeviceOf(q), at))
    case _ => s.store
  }

  function ClockAfter(s: State, a: Action): real {
    match a
    case StoreStep(step) => step.at
    case AskBudget(_, at) => at
    case Bind(_, at) => at
    case Refund(_, at) => at
    case _ => s.clock
  }

  function Apply(cfg: Settings, s: State, a: Action): State
    requires Enabled(cfg, s, a)
  {
    State(
      ClockAfter(s, a),
      StoreAfter(cfg, s, a),
      RateLimit.Final(cfg.call, s.limiter, Calls(cfg, s, a)),
      s.trace + Calls(cfg, s, a),
      if a.StoreStep? then s.requests
      else if a.Begin? then s.requests + [Request(a.key, a.msgs, EMPTY_BATCH, [], [], 0, Parsing(0, false))]
      else s.requests[a.r := Mover(cfg, s, a)])
  }

  predicate Legal(cfg: Settings, s: State, acts: seq<Action>)
    decreases |acts|
  {
    acts != [] ==> Enabled(cfg, s, acts[0]) && Legal(cfg, Apply(cfg, s, acts[0]), acts[1..])
  }

  function Exec(cfg: Settings, s: State, acts: seq<Action>): State
    requires Legal(cfg, s, acts)
    decreases |acts|
  {
    if acts == [] then s else Exec(cfg, Apply(cfg, s, acts[0]), acts[1..])
  }

  // ---------------------------------------------------------------------------------------
  // What holds of each request

  // Behind every item stands an entry of the store's log: this key passed for its device.
  predicate PassesOk(log: seq<StoreRuns.Entry>, key: int, items: seq<Dispatch.Item>, passes: seq<nat>) {
    && |passes| == |items|
    && forall j :: 0 <= j < |passes| ==>
         && passes[j] < |log| && log[passes[j]].Passed? && log[passes[j]].key == key
         && log[passes[j]].device == KeyStore.Device(items[j].platform, items[j].msg.token)
  }

  predicate Backed(log: seq<StoreRuns.Entry>, q: Request) {
    PassesOk(log, q.key, q.batch.items, q.passes)
  }

  // The messages parsed so far.
  function Read(q: Request): seq<Incoming> {
    if q.phase.Parsing? && q.phase.pos <= |q.msgs| then q.msgs[..q.phase.pos] else q.msgs
  }

  predicate Parsed(q: Request) {
    && |q.answers| == |Read(q)| && q.batch == Parse(q.key, Read(q), q.answers)
    && (q.phase.Parsing? ==> q.phase.pos <= |q.msgs| && q.refunded == 0 && (q.phase.paid ==> MayBind(q)))
  }

  predicate Running(cfg: Settings, q: Request) {
    q.phase.Sending? ==>
      Dispatch.Inv(JobFor(cfg, q.batch), q.phase.pool) && Honest(q.phase.pool) && q.refunded == 0
  }

  // The pool has ended with an outcome for every item.
  predicate Closed(job: Dispatch.Job, p: Dispatch.Pool) {
    Honest(p) && p.next <= |job.items| && DispatchRuns.Settled(job, p, p.next)
  }

  // How far the refund loop has come.
  function UpTo(q: Request): nat
    requires q.phase.Refunding? || q.phase.Answered?
  {
    if q.phase.Refunding? then q.phase.upTo else |q.batch.items|
  }

  predicate Ended(cfg: Settings, q: Request) {
    q.phase.Refunding? || q.phase.Answered? ==>
      && Closed(JobFor(cfg, q.batch), q.phase.pool) && UpTo(q) <= |q.batch.items|
      && q.refunded == Refunds(q.batch.items, q.phase.pool.results, UpTo(q))
  }

  ghost predicate AllBacked(s: State) {
    forall i :: 0 <= i < |s.requests| ==> Backed(s.store.log, s.requests[i])
  }

  ghost predicate AllParsed(s: State) {
    forall i :: 0 <= i < |s.requests| ==> Parsed(s.requests[i])
  }

  ghost predicate AllRunning(cfg: Settings, s: State) {
    forall i :: 0 <= i < |s.requests| ==> Running(cfg, s.requests[i])
  }

  ghost predicate AllEnded(cfg: Settings, s: State) {
    forall i :: 0 <= i < |s.requests| ==> Ended(cfg, s.requests[i])
  }

  // Every request runs under a key that Verify accepted.
  ghost predicate AllVerified(s: State) {
    forall i :: 0 <= i < |s.requests| ==> s.requests[i].key in s.store.sessions
  }

  ghost predicate RequestsOk(cfg: Settings, s: State) {
    AllVerified(s) && AllBacked(s) && AllParsed(s) && AllRunning(cfg, s) && AllEnded(cfg, s)
  }

  lemma {:induction false} StepKeepsVerified(cfg: Settings, s: State, a: Action)
    requires Enabled(cfg, s, a) && AllVerified(s)
    ensures AllVerified(Apply(cfg, s, a))
  {
    assert s.store.sessions <= StoreAfter(cfg, s, a).sessions;
  }

  // The parse steps, for all requests at once.
  lemma {:induction false} ParseStepsOk()
    ensures forall q: Request :: MayReject(q) && Parsed(q) ==> Parsed(AfterReject(q))
    ensures forall q: Request, ok :: MayAsk(q) && Parsed(q) ==> Parsed(AfterBudget(q, ok))
    ensures forall q: Request, bind, entry :: MayBind(q) && Parsed(q) ==> Parsed(AfterBound(q, bind, entry))
    ensures forall q: Request, p :: q.phase == Parsing(|q.msgs|, false) && Parsed(q) ==> Parsed(q.(phase := Sending(p)))
  {
    forall q: Request, a | AtMessage(q) && Parsed(q)
      ensures Advance(q, a).batch == Parse(q.key, q.msgs[..q.phase.pos + 1], q.answers + [a])
    {
      ParseExtend(q.key, q.msgs, q.answers, q.phase.pos, a);
    }
    assert forall q: Request :: q.phase == Parsing(|q.msgs|, false) ==> Read(q) == q.msgs;
  }

  lemma {:induction false} StepKeepsParsed(cfg: Settings, s: State, a: Action)
    requires Enabled(cfg, s, a) && AllParsed(s)
    ensures AllParsed(Apply(cfg, s, a))
  {
    ParseStepsOk();
  }

  // The first entry that log' adds to log is q's pass for its current message.
  predicate RecordsPass(log: seq<StoreRuns.Entry>, log': seq<StoreRuns.Entry>, q: Request)
    requires MayBind(q)
  {
    |log| < |log'| && log'[|log|].Passed? && log'[|log|].key == q.key && log'[|log|].device == DeviceOf(q)
  }

  lemma {:induction false} BoundStepsBacked(log: seq<StoreRuns.Entry>, log': seq<StoreRuns.Entry>)
    requires log <= log'
    ensures forall q :: Backed(log, q) ==> Backed(log', q)
    ensures forall q, bind | MayBind(q) && Backed(log, q) && (bind == OwnedBy(q.key) ==> RecordsPass(log, log', q)) ::
              Backed(log', AfterBound(q, bind, |log|))
  {
  }

  lemma {:induction false} StepExtendsLog(cfg: Settings, s: State, a: Action)
    requires Enabled(cfg, s, a)
    ensures s.store.log <= StoreAfter(cfg, s, a).log
    ensures a.Bind? && StoreRuns.Passes(s.store, s.requests[a.r].key, DeviceOf(s.requests[a.r])) ==>
              RecordsPass(s.store.log, StoreAfter(cfg, s, a).log, s.requests[a.r])
  {
  }

  lemma {:induction false} MoverBacked(cfg: Settings, s: State, a: Action)
    requires Enabled(cfg, s, a) && !a.StoreStep? && !a.Begin? && Backed(s.store.log, s.requests[a.r])
    ensures Backed(StoreAfter(cfg, s, a).log, Mover(cfg, s, a))
  {
    StepExtendsLog(cfg, s, a);
    BoundStepsBacked(s.store.log, StoreAfter(cfg, s, a).log);
  }

  lemma {:induction false} StepKeepsBacked(cfg: Settings, s: State, a: Action)
    requires Enabled(cfg, s, a) && AllBacked(s)
    ensures AllBacked(Apply(cfg, s, a))
  {
    StepExtendsLog(cfg, s, a);
    BoundStepsBacked(s.store.log, StoreAfter(cfg, s, a).log);
    if !a.StoreStep? && !a.Begin? {
      MoverBacked(cfg, s, a);
    }
  }

  // The pool's steps, for all requests at once.
  lemma {:induction false} PoolStepsOk(cfg: Settings)
    ensures forall q, move :: MayMove(cfg, q, move) && Running(cfg, q) ==> Running(cfg, AfterMove(cfg, q, move))
  {
    Dispatch.EveryStepKeepsInv();
  }

  lemma {:induction false} StartsOk(cfg: Settings)
    ensures forall q: Request :: q.phase.Parsing? && Parsed(q) && q.refunded == 0 ==>
              Running(cfg, q.(phase := Sending(Dispatch.Start(JobFor(cfg, q.batch)))))
  {
    forall q: Request | q.phase.Parsing? && Parsed(q) && q.refunded == 0
      ensures Dispatch.Inv(JobFor(cfg, q.batch), Dispatch.Start(JobFor(cfg, q.batch)))
    {
      ParseOk(q.key, Read(q), q.answers);
      BatchIsWellFormed(Kept(Read(q)), q.batch, cfg.configured, cfg.concurrency);
      Dispatch.StartInv(JobFor(cfg, q.batch));
    }
  }

  lemma {:induction false} StepKeepsRunning(cfg: Settings, s: State, a: Action)
    requires Enabled(cfg, s, a) && AllRunning(cfg, s) && AllParsed(s)
    ensures AllRunning(cfg, Apply(cfg, s, a))
  {
    PoolStepsOk(cfg);
    StartsOk(cfg);
  }

  lemma {:induction false} StepKeepsEnded(cfg: Settings, s: State, a: Action)
    requires Enabled(cfg, s, a) && AllEnded(cfg, s) && AllRunning(cfg, s)
    ensures AllEnded(cfg, Apply(cfg, s, a))
  {
    DispatchRuns.EveryEndSettled();
  }
}
