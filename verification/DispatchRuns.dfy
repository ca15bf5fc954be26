/**
 What every run of the worker pool satisfies, over all interleavings of the feeder, the
 workers and cancellation.
 */
module DispatchRuns {
  import opened Push
  import opened Dispatch

  predicate Legal(job: Job, p: Pool, acts: seq<Action>)
    decreases |acts|
  {
    acts != [] ==> Enabled(job, p, acts[0]) && Legal(job, Apply(job, p, acts[0]), acts[1..])
  }

  function Exec(job: Job, p: Pool, acts: seq<Action>): Pool
    requires Legal(job, p, acts)
    decreases |acts|
  {
    if acts == [] then p else Exec(job, Apply(job, p, acts[0]), acts[1..])
  }

  lemma {:induction false} RunKeepsInv(job: Job, p: Pool, acts: seq<Action>)
    requires Inv(job, p) && Legal(job, p, acts)
    ensures Inv(job, Exec(job, p, acts))
    decreases |acts|
  {
    if acts != [] {
      StepKeepsInv(job, p, acts[0]);
      RunKeepsInv(job, Apply(job, p, acts[0]), acts[1..]);
    }
  }

  // ---------------------------------------------------------------------------------------
  // Outcome

  // Items below n were sent, once each and in order, and hold what their own sender said;
  // the rest are not_attempted; every other slot is as dispatch found it.
  predicate Settled(job: Job, p: Pool, n: nat) {
    && InRange(job.items, |job.initial|) && n <= |job.items| && |p.results| == |job.initial|
    && p.contacts == job.items[..n]
    && (forall i :: 0 <= i < n ==>
          && i in p.outs
          && var out, r := p.outs[i], p.results[job.items[i].slot];
             && r.token == job.items[i].msg.token
             && (out == [] ==> r.status == Error)
             && (out != [] && out[0].status == Empty ==> r.status == NotAttempted)
             && (out != [] && out[0].status != Empty ==> r.status == out[0].status))
    && (forall i :: n <= i < |job.items| ==>
          p.results[job.items[i].slot] == Result(job.items[i].msg.token, NotAttempted))
    && (forall k :: 0 <= k < |job.initial| && (forall i :: 0 <= i < |job.items| ==> job.items[i].slot != k) ==>
          p.results[k] == job.initial[k])
  }

  lemma {:induction false} InvSettled(job: Job, p: Pool)
    requires Inv(job, p) && p.done
    ensures Settled(job, p, p.next)
    ensures !p.cancelled ==> p.next == |job.items|
    ensures forall i: nat :: i in p.outs <==> i < p.next
  {
    forall i: nat
      ensures i in p.outs <==> i < p.next
    {
      if i < p.next {
        assert !InFlight(p.workers, i);
      }
    }
    forall i | 0 <= i < |job.items|
      ensures p.results[job.items[i].slot] == Held(job, p, i)
    {
    }
  }

  lemma {:induction false} EveryEndSettled()
    ensures forall job, p :: Inv(job, p) && p.done ==> Settled(job, p, p.next) && p.next <= |job.items|
  {
    forall job, p | Inv(job, p) && p.done
      ensures Settled(job, p, p.next)
    {
      InvSettled(job, p);
    }
  }

  /** Every finished run attempted exactly a prefix of the items, and if the context never
      ended it attempted all of them. */
  lemma {:induction false} DispatchOutcome(job: Job, acts: seq<Action>)
    requires WellFormed(job) && Legal(job, Start(job), acts)
    requires Exec(job, Start(job), acts).done
    ensures var p := Exec(job, Start(job), acts);
            Settled(job, p, p.next) && (p.next < |job.items| ==> Cancel in acts)
  {
    StartInv(job);
    RunKeepsInv(job, Start(job), acts);
    InvSettled(job, Exec(job, Start(job), acts));
    CancelledByCancel(job, Start(job), acts);
  }

  lemma {:induction false} CancelledByCancel(job: Job, p: Pool, acts: seq<Action>)
    requires Legal(job, p, acts)
    ensures Exec(job, p, acts).cancelled ==> p.cancelled || Cancel in acts
    decreases |acts|
  {
    if acts != [] {
      CancelledByCancel(job, Apply(job, p, acts[0]), acts[1..]);
    }
  }

  // The sender's first result claims a status that the sweep uses for what was never sent.
  predicate Misleads(out: seq<Result>) {
    out != [] && (out[0].status == Empty || out[0].status == NotAttempted)
  }

  /** not_attempted tells the caller the truth about every item if and only if no sender
      answered with the empty status or with not_attempted itself. */
  lemma {:induction false} SentinelExact(job: Job, p: Pool)
    requires Inv(job, p) && p.done
    ensures (forall i :: 0 <= i < |job.items| ==>
               (p.results[job.items[i].slot].status == NotAttempted <==> p.next <= i))
       <==> (forall i :: 0 <= i < p.next ==> i in p.outs && !Misleads(p.outs[i]))
  {
    InvSettled(job, p);
    if forall i :: 0 <= i < |job.items| ==> (p.results[job.items[i].slot].status == NotAttempted <==> p.next <= i) {
      forall i | 0 <= i < p.next
        ensures i in p.outs && !Misleads(p.outs[i])
      {
        assert p.results[job.items[i].slot].status != NotAttempted;
      }
    }
  }

  /** A returning Send call fills its item's own slot with the first status it returned, or
      with an error if it returned nothing, under the item's token, and no other slot. */
  lemma {:induction false} FinishWrites(job: Job, p: Pool, w: nat, out: seq<Result>)
    requires Inv(job, p) && Enabled(job, p, Finish(w, out))
    ensures var i, p' := p.workers[w].item, Apply(job, p, Finish(w, out));
            && p'.results[job.items[i].slot].token == job.items[i].msg.token
            && (out == [] ==> p'.results[job.items[i].slot].status == Error)
            && (out != [] ==> p'.results[job.items[i].slot].status == out[0].status)
            && (forall k :: 0 <= k < |p.results| && k != job.items[i].slot ==> p'.results[k] == p.results[k])
            && p'.outs == p.outs[i := out]
  {
  }

  // ---------------------------------------------------------------------------------------
  // Concurrency

  function Sending(workers: seq<Worker>): nat {
    if workers == [] then 0 else (if workers[0].Calling? then 1 else 0) + Sending(workers[1..])
  }

  lemma {:induction false} SendingBounded(workers: seq<Worker>)
    ensures Sending(workers) <= |workers|
  {
    if workers != [] {
      SendingBounded(workers[1..]);
    }
  }

  /** In every reachable state the sends in flight stay within the configured bound, two
      workers never hold the same item or write the same slot, and a finishing worker is the
      first to write its slot. */
  lemma {:induction false} NoSharedSlots(job: Job, acts: seq<Action>)
    requires WellFormed(job) && Legal(job, Start(job), acts)
    ensures var p := Exec(job, Start(job), acts);
            && Sending(p.workers) <= |job.items|
            && Sending(p.workers) <= (if job.concurrency <= 0 then 1 else job.concurrency)
            && (forall w :: 0 <= w < |p.workers| && p.workers[w].Calling? ==>
                  p.workers[w].item < p.next <= |job.items|)
            && (forall v, w :: 0 <= v < w < |p.workers| && p.workers[v].Calling? && p.workers[w].Calling? ==>
                  job.items[p.workers[v].item].slot != job.items[p.workers[w].item].slot)
            && (forall w: nat, out :: Enabled(job, p, Finish(w, out)) ==>
                  p.results[job.items[p.workers[w].item].slot] == UNFILLED)
  {
    StartInv(job);
    RunKeepsInv(job, Start(job), acts);
    var p := Exec(job, Start(job), acts);
    SendingBounded(p.workers);
    forall w: nat, out | Enabled(job, p, Finish(w, out))
      ensures p.results[job.items[p.workers[w].item].slot] == UNFILLED
    {
      var i := p.workers[w].item;
      assert Holds(p.workers[w], i) && InFlight(p.workers, i);
      assert p.results[job.items[i].slot] == Held(job, p, i);
    }
  }

  // ---------------------------------------------------------------------------------------
  // Progress and termination

  // The feeder may still stop after exactly n items.
  predicate CanStopAt(job: Job, p: Pool, n: nat) {
    && p.next <= n <= |job.items|
    && (p.feeder.Feeding? || p.next == n)
    && (p.feeder.Feeding? && n < |job.items| ==> p.cancelled)
  }

  // A step that is not a cancellation and leaves stopping at n possible.
  lemma {:induction false} StepToward(job: Job, p: Pool, n: nat) returns (a: Action)
    requires Inv(job, p) && !p.done && CanStopAt(job, p, n)
    ensures a != Cancel && Enabled(job, p, a) && CanStopAt(job, Apply(job, p, a), n)
    ensures a.Finish? ==> ProviderAnswer(a.out)
  {
    if w: nat :| w < |p.workers| && p.workers[w].Calling? {
      var item := job.items[p.workers[w].item];
      if item.platform in job.configured || p.workers[w].logged {
        a := Finish(w, Rejections([item.msg]));
      } else {
        a := Log(w);
      }
    } else if p.feeder.Feeding? {
      if p.next == n {
        a := LeaveLoop;
      } else {
        assert p.workers[0].Idle?;
        a := Handoff(0);
      }
    } else if p.feeder.Stopped? {
      a := CloseChannel;
    } else if w: nat :| w < |p.workers| && p.workers[w].Idle? {
      a := Exit(w);
    } else {
      a := Sweep;
    }
  }

  /** No deadlock: an unfinished pool can always take a step that is not a cancellation,
      provided a Send that was called can return. */
  lemma {:induction false} Progress(job: Job, p: Pool) returns (a: Action)
    requires Inv(job, p) && !p.done
    ensures a != Cancel && Enabled(job, p, a)
    ensures a.Finish? ==> ProviderAnswer(a.out)
  {
    a := StepToward(job, p, if p.feeder.Feeding? then |job.items| else p.next);
  }

  function Weight(w: Worker): nat {
    match w
    case Exited => 0
    case Idle => 1
    case Calling(_, logged) => if logged then 2 else 3
  }

  function Load(workers: seq<Worker>): nat {
    if workers == [] then 0 else Weight(workers[0]) + Load(workers[1..])
  }

  lemma {:induction false} LoadUpdate(workers: seq<Worker>, w: nat, x: Worker)
    requires w < |workers|
    ensures Load(workers[w := x]) == Load(workers) - Weight(workers[w]) + Weight(x)
    decreases w
  {
    if w == 0 {
      assert workers[w := x][1..] == workers[1..];
    } else {
      assert workers[w := x][1..] == workers[1..][w - 1 := x];
      LoadUpdate(workers[1..], w - 1, x);
    }
  }

  function Measure(job: Job, p: Pool): nat
    requires p.next <= |job.items|
  {
    3 * (|job.items| - p.next) + Load(p.workers)
    + (match p.feeder case Feeding => 2 case Stopped => 1 case Closed => 0)
    + (if p.cancelled then 0 else 1) + (if p.done then 0 else 1)
  }

  lemma {:induction false} StepLowersMeasure(job: Job, p: Pool, a: Action)
    requires Inv(job, p) && Enabled(job, p, a)
    ensures Apply(job, p, a).next <= |job.items|
    ensures Measure(job, Apply(job, p, a)) < Measure(job, p)
  {
    if a.Handoff? || a.Log? || a.Finish? || a.Exit? {
      LoadUpdate(p.workers, a.worker, Apply(job, p, a).workers[a.worker]);
    }
  }

  lemma {:induction false} IdleLoad(n: nat)
    ensures Load(seq(n, _ => Idle)) == n
  {
    if n > 0 {
      assert seq(n, _ => Idle)[1..] == seq(n - 1, _ => Idle);
      IdleLoad(n - 1);
    }
  }

  lemma {:induction false} RunWithinMeasure(job: Job, p: Pool, acts: seq<Action>)
    requires Inv(job, p) && Legal(job, p, acts)
    ensures |acts| <= Measure(job, p)
    decreases |acts|
  {
    if acts != [] {
      StepKeepsInv(job, p, acts[0]);
      StepLowersMeasure(job, p, acts[0]);
      RunWithinMeasure(job, Apply(job, p, acts[0]), acts[1..]);
    }
  }

  /** Dispatch ends: no run of a batch of n items has more than 4n + 4 steps. */
  lemma {:induction false} DispatchTerminates(job: Job, acts: seq<Action>)
    requires WellFormed(job) && Legal(job, Start(job), acts)
    ensures |acts| <= 4 * |job.items| + 4
  {
    StartInv(job);
    IdleLoad(PoolSize(job));
    RunWithinMeasure(job, Start(job), acts);
  }

  lemma {:induction false} RunToward(job: Job, p: Pool, n: nat) returns (acts: seq<Action>)
    requires Inv(job, p) && CanStopAt(job, p, n)
    ensures Legal(job, p, acts)
    ensures var p' := Exec(job, p, acts); p'.done && p'.next == n
    decreases if p.next <= |job.items| then Measure(job, p) else 0
  {
    acts := [];
    if !p.done {
      var a := StepToward(job, p, n);
      StepKeepsInv(job, p, a);
      StepLowersMeasure(job, p, a);
      var rest := RunToward(job, Apply(job, p, a), n);
      acts := [a] + rest;
      assert acts[1..] == rest;
    }
  }

  /** How far a batch gets is open: even if the context has ended before the first handoff,
      the pool may finish having sent any number of the items, from none to all. */
  lemma {:induction false} EveryPrefixPossible(job: Job, n: nat) returns (acts: seq<Action>)
    requires WellFormed(job) && n <= |job.items|
    ensures Legal(job, Start(job), acts)
    ensures var p := Exec(job, Start(job), acts); p.done && p.next == n
    ensures job.items != [] ==> acts != [] && acts[0] == Cancel
  {
    acts := [];
    if job.items != [] {
      StartInv(job);
      StepKeepsInv(job, Start(job), Cancel);
      var rest := RunToward(job, Apply(job, Start(job), Cancel), n);
      acts := [Cancel] + rest;
      assert acts[1..] == rest;
    }
  }

  // ---------------------------------------------------------------------------------------
  // The stub's log lines

  predicate Unique(s: seq<Platform>) {
    forall i, j :: 0 <= i < j < |s| ==> s[i] != s[j]
  }

  // Item i's stub is past its log check.
  predicate PastLog(job: Job, p: Pool, i: nat)
    requires i < |job.items|
  {
    job.items[i].platform !in job.configured
    && (i in p.outs || exists w :: 0 <= w < |p.workers| && p.workers[w] == Calling(i, true))
  }

  predicate LogInv(job: Job, p: Pool)
    requires p.next <= |job.items|
  {
    && Unique(p.lines)
    && (forall f :: f in p.scope <==> f in p.lines)
    && (forall i :: 0 <= i < p.next && PastLog(job, p, i) ==> job.items[i].platform in p.scope)
    && (forall f :: f in p.scope ==> exists i :: 0 <= i < p.next && job.items[i].platform == f && f !in job.configured)
  }

  // A step puts an item past the log check only by logging, so its platform is recorded.
  lemma {:induction false} PastLogStep(job: Job, p: Pool, a: Action, i: nat)
    requires Enabled(job, p, a) && i < p.next && Apply(job, p, a).next <= |job.items| && p.next <= |job.items|
    requires PastLog(job, Apply(job, p, a), i)
    ensures PastLog(job, p, i) || (a.Log? && p.workers[a.worker].item == i)
  {
    var p' := Apply(job, p, a);
    if i !in p'.outs {
      var w :| 0 <= w < |p'.workers| && p'.workers[w] == Calling(i, true);
      assert p.workers[w] == p'.workers[w] || a == Log(w);
    }
  }

  lemma {:induction false} StepKeepsLogInv(job: Job, p: Pool, a: Action)
    requires Inv(job, p) && LogInv(job, p) && Enabled(job, p, a)
    ensures Apply(job, p, a).next <= |job.items| && LogInv(job, Apply(job, p, a))
  {
    var p' := Apply(job, p, a);
    forall i | 0 <= i < p'.next && PastLog(job, p', i)
      ensures job.items[i].platform in p'.scope
    {
      assert i < p.next;
      PastLogStep(job, p, a, i);
    }
  }

  lemma {:induction false} RunKeepsLogInv(job: Job, p: Pool, acts: seq<Action>)
    requires Inv(job, p) && LogInv(job, p) && Legal(job, p, acts)
    ensures Exec(job, p, acts).next <= |job.items| && LogInv(job, Exec(job, p, acts))
    decreases |acts|
  {
    if acts != [] {
      StepKeepsInv(job, p, acts[0]);
      StepKeepsLogInv(job, p, acts[0]);
      RunKeepsLogInv(job, Apply(job, p, acts[0]), acts[1..]);
    }
  }

  /** Over a whole request a platform without credentials writes exactly one log line if at
      least one of its items was attempted, and none otherwise; each platform on its own. */
  lemma {:induction false} OneLinePerStub(job: Job, acts: seq<Action>, f: Platform)
    requires WellFormed(job) && Legal(job, Start(job), acts)
    requires Exec(job, Start(job), acts).done
    ensures var p := Exec(job, Start(job), acts);
            && Unique(p.lines)
            && (f in p.lines <==> f !in job.configured && exists item :: item in p.contacts && item.platform == f)
  {
    StartInv(job);
    RunKeepsInv(job, Start(job), acts);
    RunKeepsLogInv(job, Start(job), acts);
    var p := Exec(job, Start(job), acts);
    InvSettled(job, p);
    forall i | 0 <= i < p.next
      ensures p.contacts[i] == job.items[i]
      ensures job.items[i].platform !in job.configured ==> PastLog(job, p, i)
    {
    }
    if f in p.lines {
      var i :| 0 <= i < p.next && job.items[i].platform == f && f !in job.configured;
      assert p.contacts[i] in p.contacts;
    }
  }
}
