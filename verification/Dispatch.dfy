/**
 The worker pool of /v1/send: one feeder hands item indices over an unbuffered channel to
 a bounded set of workers, a context may end at any moment, and after close and wait a
 sweep marks what was never attempted.

 The pool is a transition system.  Each Action is one step of the feeder, of a worker, of
 the environment or of the final sweep, and the theorems hold for every order of steps.
 */
module Dispatch {
  import opened Push

  // One message ready to send, the sender it goes through and the result slot it owns.
  datatype Item = Item(slot: nat, platform: Platform, msg: Message)

  // What dispatch is called with.  `configured` says which platforms have a real client.
  datatype Job = Job(items: seq<Item>, initial: seq<Result>, configured: set<Platform>, concurrency: int)

  // Calling(i, logged): inside Send for item i; `logged` once a stub is past its log check.
  datatype Worker = Idle | Calling(item: nat, logged: bool) | Exited

  datatype Feeder = Feeding | Stopped | Closed

  // `contacts` and `outs` are history: the items Send was called with, in order, and what
  // each finished call returned.
  datatype Pool = Pool(
    next: nat,
    feeder: Feeder,
    cancelled: bool,
    workers: seq<Worker>,
    results: seq<Result>,
    scope: set<Platform>,
    lines: seq<Platform>,
    done: bool,
    contacts: seq<Item>,
    outs: map<nat, seq<Result>>)

  datatype Action =
    | Cancel
    | Handoff(worker: nat)
    | Log(worker: nat)
    | Finish(worker: nat, out: seq<Result>)
    | LeaveLoop
    | CloseChannel
    | Exit(worker: nat)
    | Sweep

  predicate InRange(items: seq<Item>, n: nat) {
    forall i :: 0 <= i < |items| ==> items[i].slot < n
  }

  predicate DistinctSlots(items: seq<Item>) {
    forall i, j :: 0 <= i < j < |items| ==> items[i].slot != items[j].slot
  }

  // What handleSend passes: every item owns a slot of its own that is still unfilled.
  predicate WellFormed(job: Job) {
    && InRange(job.items, |job.initial|)
    && DistinctSlots(job.items)
    && forall i :: 0 <= i < |job.items| ==> job.initial[job.items[i].slot] == UNFILLED
  }

  function PoolSize(job: Job): (n: nat)
    ensures n <= |job.items|
    ensures n as int <= if job.concurrency <= 0 then 1 else job.concurrency
    ensures n == |job.items| || n as int == if job.concurrency <= 0 then 1 else job.concurrency
  {
    var workers := if job.concurrency <= 0 then 1 else job.concurrency;
    if workers > |job.items| then |job.items| else workers
  }

  function Start(job: Job): Pool {
    Pool(0, Feeding, false, seq(PoolSize(job), _ => Idle), job.initial, {}, [], job.items == [], [], map[])
  }

  // ---------------------------------------------------------------------------------------
  // The final sweep

  function Mark(item: Item, r: Result): Result {
    if r.status == Empty then Result(item.msg.token, NotAttempted) else r
  }

  function Marked(items: seq<Item>, results: seq<Result>): (r: seq<Result>)
    requires InRange(items, |results|)
    ensures |r| == |results|
    decreases |items|
  {
    if items == [] then results
    else Marked(items[1..], results[items[0].slot := Mark(items[0], results[items[0].slot])])
  }

  method MarkUnattempted(items: seq<Item>, results: array<Result>)
    requires InRange(items, results.Length)
    modifies results
    ensures results[..] == Marked(items, old(results[..]))
  {
    for i := 0 to |items|
      invariant Marked(items[i..], results[..]) == Marked(items, old(results[..]))
    {
      var item := items[i];
      ghost var before := results[..];
      if results[item.slot].status == Empty {
        results[item.slot] := Result(item.msg.token, NotAttempted);
      }
      assert results[..] == before[item.slot := Mark(item, before[item.slot])];
      assert items[i..][1..] == items[i + 1..];
    }
  }

  // The sweep rewrites every item's own slot once and leaves all other slots alone.
  lemma {:induction false} MarkedAt(items: seq<Item>, results: seq<Result>, k: nat)
    requires InRange(items, |results|) && DistinctSlots(items) && k < |results|
    ensures forall i :: 0 <= i < |items| && items[i].slot == k ==>
              Marked(items, results)[k] == Mark(items[i], results[k])
    ensures (forall i :: 0 <= i < |items| ==> items[i].slot != k) ==> Marked(items, results)[k] == results[k]
    decreases |items|
  {
    if items != [] {
      MarkedAt(items[1..], results[items[0].slot := Mark(items[0], results[items[0].slot])], k);
      forall i | 0 <= i < |items| && items[i].slot == k
        ensures Marked(items, results)[k] == Mark(items[i], results[k])
      {
        if i > 0 {
          assert items[1..][i - 1] == items[i];
        }
      }
    }
  }

  // ---------------------------------------------------------------------------------------
  // Steps

  predicate Enabled(job: Job, p: Pool, a: Action) {
    !p.done &&
    match a
    case Cancel => !p.cancelled
    // Go's select is free to hand over an item even when the context has already ended.
    case Handoff(w) =>
      p.feeder.Feeding? && p.next < |job.items| && w < |p.workers| && p.workers[w].Idle?
    case Log(w) =>
      && w < |p.workers| && p.workers[w].Calling? && !p.workers[w].logged
      && p.workers[w].item < |job.items| && job.items[p.workers[w].item].platform !in job.configured
    case Finish(w, out) =>
      && w < |p.workers| && p.workers[w].Calling? && p.workers[w].item < |job.items|
      && job.items[p.workers[w].item].slot < |p.results|
      && var item := job.items[p.workers[w].item];
         item.platform !in job.configured ==> p.workers[w].logged && out == Rejections([item.msg])
    case LeaveLoop => p.feeder.Feeding? && (p.next == |job.items| || p.cancelled)
    case CloseChannel => p.feeder.Stopped?
    case Exit(w) => p.feeder.Closed? && w < |p.workers| && p.workers[w].Idle?
    case Sweep =>
      && p.feeder.Closed? && (forall w :: 0 <= w < |p.workers| ==> p.workers[w].Exited?)
      && InRange(job.items, |p.results|)
  }

  function Apply(job: Job, p: Pool, a: Action): Pool
    requires Enabled(job, p, a)
  {
    match a
    case Cancel => p.(cancelled := true)
    case Handoff(w) =>
      p.(next := p.next + 1,
         workers := p.workers[w := Calling(p.next, false)],
         contacts := p.contacts + [job.items[p.next]])
    case Log(w) =>
      var i := p.workers[w].item;
      var platform := job.items[i].platform;
      p.(workers := p.workers[w := Calling(i, true)],
         scope := p.scope + {platform},
         lines := if platform in p.scope then p.lines else p.lines + [platform])
    case Finish(w, out) =>
      var i := p.workers[w].item;
      var item := job.items[i];
      p.(workers := p.workers[w := Idle],
         results := p.results[item.slot := Result(item.msg.token, Reported(out))],
         outs := p.outs[i := out])
    case LeaveLoop => p.(feeder := Stopped)
    case CloseChannel => p.(feeder := Closed)
    case Exit(w) => p.(workers := p.workers[w := Exited])
    case Sweep => p.(results := Marked(job.items, p.results), done := true)
  }

  // ---------------------------------------------------------------------------------------
  // What every step keeps

  predicate InFlight(workers: seq<Worker>, i: nat) {
    exists w :: 0 <= w < |workers| && Holds(workers[w], i)
  }

  predicate Holds(w: Worker, i: nat) {
    w.Calling? && w.item == i
  }

  // No two workers are calling Send for the same item.
  predicate DistinctCalls(workers: seq<Worker>) {
    forall v, w :: 0 <= v < w < |workers| && workers[v].Calling? && workers[w].Calling? ==>
      workers[v].item != workers[w].item
  }

  lemma {:induction false} InFlightUpdate(workers: seq<Worker>, w: nat, x: Worker, i: nat)
    requires w < |workers| && DistinctCalls(workers)
    ensures InFlight(workers[w := x], i) <==> Holds(x, i) || (InFlight(workers, i) && !Holds(workers[w], i))
  {
    var workers' := workers[w := x];
    if InFlight(workers, i) {
      var v :| 0 <= v < |workers| && Holds(workers[v], i);
      assert v != w ==> Holds(workers'[v], i);
    }
    assert Holds(x, i) ==> Holds(workers'[w], i);
  }

  predicate Shape(job: Job, p: Pool) {
    && p.next <= |job.items|
    && |p.results| == |job.initial|
    && |p.workers| == PoolSize(job)
    && (p.done ==> p.feeder.Closed? || job.items == [])
    && (!p.feeder.Feeding? && p.next < |job.items| ==> p.cancelled)
    && (forall w :: 0 <= w < |p.workers| && p.workers[w].Exited? ==> p.feeder.Closed?)
    && p.contacts == job.items[..p.next]
  }

  // Every index below the feeder position is with exactly one worker or finished.
  predicate Assigned(job: Job, p: Pool) {
    && (forall i :: i in p.outs ==> i < p.next)
    && (forall i :: 0 <= i < p.next ==> (InFlight(p.workers, i) <==> i !in p.outs))
    && (forall w :: 0 <= w < |p.workers| && p.workers[w].Calling? ==> p.workers[w].item < p.next)
    && DistinctCalls(p.workers)
    && (p.done ==> forall w :: 0 <= w < |p.workers| ==> p.workers[w].Exited?)
  }

  // What item i's slot holds: its own status once finished, and until then what dispatch
  // found there; the final sweep marks it if it is still empty.
  function Held(job: Job, p: Pool, i: nat): Result
    requires i < |job.items| && InRange(job.items, |job.initial|)
  {
    var item := job.items[i];
    var r := if i in p.outs then Result(item.msg.token, Reported(p.outs[i])) else job.initial[item.slot];
    if p.done then Mark(item, r) else r
  }

  predicate Slots(job: Job, p: Pool)
    requires InRange(job.items, |job.initial|) && |p.results| == |job.initial|
  {
    && (forall i :: 0 <= i < |job.items| ==> p.results[job.items[i].slot] == Held(job, p, i))
    && (forall k :: 0 <= k < |job.initial| && (forall i :: 0 <= i < |job.items| ==> job.items[i].slot != k) ==>
          p.results[k] == job.initial[k])
  }

  predicate Inv(job: Job, p: Pool) {
    Shape(job, p) && Assigned(job, p) && WellFormed(job) && Slots(job, p)
  }

  lemma {:induction false} StartInv(job: Job)
    requires WellFormed(job)
    ensures Inv(job, Start(job))
  {
  }

  lemma {:induction false} StepKeepsShape(job: Job, p: Pool, a: Action)
    requires Inv(job, p) && Enabled(job, p, a)
    ensures Shape(job, Apply(job, p, a))
  {
    if a.Handoff? {
      assert job.items[..p.next + 1] == job.items[..p.next] + [job.items[p.next]];
    }
  }

  lemma {:induction false} StepKeepsAssigned(job: Job, p: Pool, a: Action)
    requires Inv(job, p) && Enabled(job, p, a)
    ensures Assigned(job, Apply(job, p, a))
  {
    var p' := Apply(job, p, a);
    if a.Handoff? || a.Log? || a.Finish? || a.Exit? {
      forall i | 0 <= i < p'.next
        ensures InFlight(p'.workers, i) <==> i !in p'.outs
      {
        InFlightUpdate(p.workers, a.worker, p'.workers[a.worker], i);
        if i == p.next {
          assert !InFlight(p.workers, i);
        }
      }
    }
  }

  lemma {:induction false} StepKeepsSlots(job: Job, p: Pool, a: Action)
    requires Inv(job, p) && Enabled(job, p, a)
    ensures |Apply(job, p, a).results| == |job.initial| && Slots(job, Apply(job, p, a))
  {
    if a.Sweep? {
      forall k | 0 <= k < |job.initial|
        ensures forall i :: 0 <= i < |job.items| && job.items[i].slot == k ==>
                  Marked(job.items, p.results)[k] == Mark(job.items[i], p.results[k])
        ensures (forall i :: 0 <= i < |job.items| ==> job.items[i].slot != k) ==>
                  Marked(job.items, p.results)[k] == p.results[k]
      {
        MarkedAt(job.items, p.results, k);
      }
    }
  }

  lemma {:induction false} StepKeepsInv(job: Job, p: Pool, a: Action)
    requires Inv(job, p) && Enabled(job, p, a)
    ensures Inv(job, Apply(job, p, a))
  {
    StepKeepsShape(job, p, a);
    StepKeepsAssigned(job, p, a);
    StepKeepsSlots(job, p, a);
  }

  // The same for all pools at once, for callers with many of them.
  lemma {:induction false} EveryStepKeepsInv()
    ensures forall job, p, a :: Inv(job, p) && Enabled(job, p, a) ==> Inv(job, Apply(job, p, a))
  {
    forall job, p, a | Inv(job, p) && Enabled(job, p, a)
      ensures Inv(job, Apply(job, p, a))
    {
      StepKeepsInv(job, p, a);
    }
  }
}
