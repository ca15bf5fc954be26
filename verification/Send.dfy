/**
 The request loop of /v1/send around the worker pool: parsing a batch into result slots and
 items, and refunding the call budget of what was never attempted.

 The call limiter and the key store are shared with other requests, so the loop sees them
 only through their answers, one Answer per message.
 */
module Send {
  import opened Push
  import opened Dispatch
  import DispatchRuns
  import RateLimit
  import LimiterRuns

  datatype Incoming = Incoming(platform: string, token: string, kind: string, payload: Bytes)

  const MAX_PAYLOAD_BYTES: nat := 4096

  datatype BindAnswer = OwnedBy(id: int) | BindFailed

  // What the call limiter and BindToken say about one message, where they are asked.
  datatype Answer = Answer(callAllowed: bool, bind: BindAnswer)

  // What the checks before any shared state make of a message.
  datatype Verdict = Skipped | Malformed | Ready(platform: Platform, kind: Kind)

  function Classify(m: Incoming): Verdict {
    if m.token == "" then Skipped
    else if |m.payload| > MAX_PAYLOAD_BYTES then Malformed
    else if ParsePlatform(m.platform).None? || ParseKind(m.kind).None? then Malformed
    else Ready(ParsePlatform(m.platform).value, ParseKind(m.kind).value)
  }

  // `spent` counts the call tokens the batch took, `lost` those of messages that were then
  // refused by binding.
  datatype Batch = Batch(results: seq<Result>, items: seq<Item>, spent: nat, lost: nat)

  const EMPTY_BATCH := Batch([], [], 0, 0)

  function Refuse(b: Batch, m: Incoming, status: Status): Batch {
    b.(results := b.results + [Result(m.token, status)])
  }

  // A message that BindToken was asked about; a call has paid for it already.
  function AbsorbBound(key: int, b: Batch, m: Incoming, platform: Platform, kind: Kind, bind: BindAnswer): Batch {
    var paid: nat := if kind.CallKind? then 1 else 0;
    if bind == OwnedBy(key) then
      b.(results := b.results + [UNFILLED],
         items := b.items + [Item(|b.results|, platform, Message(m.token, kind, m.payload))],
         spent := b.spent + paid)
    else
      Refuse(b, m, if bind.BindFailed? then Error else Forbidden).(spent := b.spent + paid, lost := b.lost + paid)
  }

  function Absorb(key: int, b: Batch, m: Incoming, a: Answer): Batch {
    match Classify(m)
    case Skipped => b
    case Malformed => Refuse(b, m, Error)
    case Ready(platform, kind) =>
      if kind.CallKind? && !a.callAllowed then Refuse(b, m, Error)
      else AbsorbBound(key, b, m, platform, kind, a.bind)
  }

  function Parse(key: int, msgs: seq<Incoming>, answers: seq<Answer>): Batch
    requires |msgs| == |answers|
  {
    if msgs == [] then EMPTY_BATCH
    else
      var n := |msgs| - 1;
      Absorb(key, Parse(key, msgs[..n], answers[..n]), msgs[n], answers[n])
  }

  // The messages that get a result: those with a token.
  function Kept(msgs: seq<Incoming>): seq<Incoming> {
    if msgs == [] then []
    else
      var n := |msgs| - 1;
      Kept(msgs[..n]) + (if msgs[n].token == "" then [] else [msgs[n]])
  }

  // Message n is kept, and i kept messages come before it.
  predicate KeptAt(msgs: seq<Incoming>, n: nat, i: nat) {
    n < |msgs| && msgs[n].token != "" && |Kept(msgs[..n])| == i
  }

  // Kept is the request without the messages that have no token, in the same order.
  lemma {:induction false} KeptExact(msgs: seq<Incoming>)
    ensures forall n: nat, i: nat :: KeptAt(msgs, n, i) ==> i < |Kept(msgs)| && Kept(msgs)[i] == msgs[n]
    ensures forall i :: 0 <= i < |Kept(msgs)| ==> Kept(msgs)[i].token != "" && exists n: nat :: KeptAt(msgs, n, i)
    decreases |msgs|
  {
    if msgs != [] {
      var last := |msgs| - 1;
      var front := msgs[..last];
      KeptExact(front);
      forall n: nat, i: nat
        ensures KeptAt(msgs, n, i) <==> KeptAt(front, n, i) || (n == last && msgs[n].token != "" && |Kept(front)| == i)
      {
        assert n < last ==> front[..n] == msgs[..n];
      }
      assert msgs[last].token != "" ==> KeptAt(msgs, last, |Kept(front)|);
    }
  }

  // The number of call items among the first n.
  function CallsBelow(items: seq<Item>, n: nat): nat
    requires n <= |items|
  {
    if n == 0 then 0 else CallsBelow(items, n - 1) + if items[n - 1].msg.kind.CallKind? then 1 else 0
  }

  lemma {:induction false} CallsBelowAppend(items: seq<Item>, item: Item, n: nat)
    requires n <= |items|
    ensures CallsBelow(items + [item], n) == CallsBelow(items, n)
  {
    if n > 0 {
      CallsBelowAppend(items, item, n - 1);
    }
  }

  lemma {:induction false} CallsBelowExtend(items: seq<Item>, item: Item)
    ensures CallsBelow(items + [item], |items + [item]|) ==
            CallsBelow(items, |items|) + if item.msg.kind.CallKind? then 1 else 0
  {
    CallsBelowAppend(items, item, |items|);
  }

  lemma {:induction false} CallsBelowMonotone(items: seq<Item>, m: nat, n: nat)
    requires m <= n <= |items|
    ensures CallsBelow(items, m) <= CallsBelow(items, n)
    decreases n
  {
    if m < n {
      CallsBelowMonotone(items, m, n - 1);
    }
  }

  /** The parse loop of handleSend. */
  method ParseBatch(key: int, msgs: seq<Incoming>, answers: seq<Answer>)
    returns (results: seq<Result>, items: seq<Item>)
    requires |msgs| == |answers|
    ensures results == Parse(key, msgs, answers).results && items == Parse(key, msgs, answers).items
    ensures BatchOk(Kept(msgs), Parse(key, msgs, answers))
    ensures forall n :: 0 <= n < |msgs| && msgs[n].token != "" ==>
              var slot := |Kept(msgs[..n])|;
              slot < |results| && Told(key, msgs[n], answers[n], results[slot], HasItem(items, slot))
  {
    results, items := [], [];
    for i := 0 to |msgs|
      invariant results == Parse(key, msgs[..i], answers[..i]).results
      invariant items == Parse(key, msgs[..i], answers[..i]).items
    {
      assert msgs[..i + 1][..i] == msgs[..i] && answers[..i + 1][..i] == answers[..i];
      var m, a := msgs[i], answers[i];
      if m.token == "" {
        continue;
      }
      if |m.payload| > MAX_PAYLOAD_BYTES {
        results := results + [Result(m.token, Error)];
        continue;
      }
      var platform := ParsePlatform(m.platform);
      if platform.None? {
        results := results + [Result(m.token, Error)];
        continue;
      }
      var kind := ParseKind(m.kind);
      if kind.None? {
        results := results + [Result(m.token, Error)];
        continue;
      }
      if kind.value == CallKind && !a.callAllowed {
        results := results + [Result(m.token, Error)];
        continue;
      }
      if a.bind.BindFailed? {
        results := results + [Result(m.token, Error)];
        continue;
      }
      if a.bind.id != key {
        results := results + [Result(m.token, Forbidden)];
        continue;
      }
      var slot := |results|;
      results := results + [UNFILLED];
      items := items + [Item(slot, platform.value, Message(m.token, kind.value, m.payload))];
    }
    assert msgs[..|msgs|] == msgs && answers[..|msgs|] == answers;
    ParseOk(key, msgs, answers);
    forall n | 0 <= n < |msgs| && msgs[n].token != ""
      ensures var slot := |Kept(msgs[..n])|;
              slot < |results| && Told(key, msgs[n], answers[n], results[slot], HasItem(items, slot))
    {
      ParseAt(key, msgs, answers, n);
    }
  }

  // ---------------------------------------------------------------------------------------
  // What a parsed batch looks like

  // The item carries the message it came from, unchanged.
  predicate Carries(item: Item, m: Incoming) {
    && m.token == item.msg.token != "" && m.payload == item.msg.payload && |m.payload| <= MAX_PAYLOAD_BYTES
    && m.platform == PlatformName(item.platform) && m.kind == KindName(item.msg.kind)
  }

  predicate HasItem(items: seq<Item>, slot: nat) {
    exists j :: 0 <= j < |items| && items[j].slot == slot
  }

  // Items own increasing, unfilled slots and carry the messages of those slots.
  predicate ItemsOk(kept: seq<Incoming>, results: seq<Result>, items: seq<Item>)
    requires |results| == |kept|
  {
    && (forall i, j :: 0 <= i < j < |items| ==> items[i].slot < items[j].slot)
    && (forall j :: 0 <= j < |items| ==>
          items[j].slot < |kept| && Carries(items[j], kept[items[j].slot]) && results[items[j].slot] == UNFILLED)
  }

  // A slot without an item holds a refusal under its message's token.
  predicate RefusalsOk(kept: seq<Incoming>, results: seq<Result>, items: seq<Item>)
    requires |results| == |kept|
  {
    forall i :: 0 <= i < |kept| && !HasItem(items, i) ==>
      results[i] == Result(kept[i].token, Error) || results[i] == Result(kept[i].token, Forbidden)
  }

  predicate BatchOk(kept: seq<Incoming>, b: Batch) {
    && |b.results| == |kept|
    && ItemsOk(kept, b.results, b.items) && RefusalsOk(kept, b.results, b.items)
    && SpentOk(b)
  }

  // Every call token the batch took is an item's or is lost.
  predicate SpentOk(b: Batch) {
    b.spent == CallsBelow(b.items, |b.items|) + b.lost
  }

  lemma {:induction false} RefuseKeepsOk(kept: seq<Incoming>, b: Batch, m: Incoming, status: Status)
    requires BatchOk(kept, b) && (status == Error || status == Forbidden)
    ensures BatchOk(kept + [m], Refuse(b, m, status))
  {
    forall i | 0 <= i < |kept| && !HasItem(b.items, i)
      ensures (kept + [m])[i] == kept[i]
    {
    }
  }

  lemma {:induction false} HasItemAppend(items: seq<Item>, item: Item, slot: nat)
    ensures HasItem(items + [item], slot) <==> HasItem(items, slot) || item.slot == slot
  {
    var items' := items + [item];
    if HasItem(items, slot) {
      var j :| 0 <= j < |items| && items[j].slot == slot;
      assert items'[j].slot == slot;
    }
    assert items'[|items|] == item;
  }

  lemma {:induction false} ItemCarries(slot: nat, m: Incoming, platform: Platform, kind: Kind)
    requires Classify(m) == Ready(platform, kind)
    ensures Carries(Item(slot, platform, Message(m.token, kind, m.payload)), m)
  {
  }

  lemma {:induction false} AcceptKeepsItems(kept: seq<Incoming>, results: seq<Result>, items: seq<Item>,
                                            m: Incoming, item: Item)
    requires |results| == |kept| && ItemsOk(kept, results, items) && item.slot == |kept| && Carries(item, m)
    ensures ItemsOk(kept + [m], results + [UNFILLED], items + [item])
  {
    forall j | 0 <= j < |items|
      ensures (items + [item])[j] == items[j] && (kept + [m])[items[j].slot] == kept[items[j].slot]
    {
    }
  }

  lemma {:induction false} AcceptKeepsRefusals(kept: seq<Incoming>, results: seq<Result>, items: seq<Item>,
                                               m: Incoming, item: Item)
    requires |results| == |kept| && RefusalsOk(kept, results, items) && item.slot == |kept|
    ensures RefusalsOk(kept + [m], results + [UNFILLED], items + [item])
  {
    forall i: nat
      ensures HasItem(items + [item], i) <==> HasItem(items, i) || item.slot == i
    {
      HasItemAppend(items, item, i);
    }
  }

  lemma {:induction false} AcceptKeepsOk(kept: seq<Incoming>, b: Batch, m: Incoming, platform: Platform,
                                         kind: Kind, key: int)
    requires BatchOk(kept, b) && Classify(m) == Ready(platform, kind)
    ensures BatchOk(kept + [m], AbsorbBound(key, b, m, platform, kind, OwnedBy(key)))
  {
    var item := Item(|b.results|, platform, Message(m.token, kind, m.payload));
    ItemCarries(|b.results|, m, platform, kind);
    AcceptKeepsItems(kept, b.results, b.items, m, item);
    AcceptKeepsRefusals(kept, b.results, b.items, m, item);
    CallsBelowExtend(b.items, item);
  }

  lemma {:induction false} BoundKeepsOk(kept: seq<Incoming>, b: Batch, m: Incoming, platform: Platform,
                                        kind: Kind, key: int, bind: BindAnswer)
    requires BatchOk(kept, b) && Classify(m) == Ready(platform, kind)
    ensures BatchOk(kept + [m], AbsorbBound(key, b, m, platform, kind, bind))
  {
    if bind == OwnedBy(key) {
      AcceptKeepsOk(kept, b, m, platform, kind, key);
    } else {
      RefuseKeepsOk(kept, b, m, if bind.BindFailed? then Error else Forbidden);
    }
  }

  lemma {:induction false} KeptExtend(msgs: seq<Incoming>, n: nat)
    requires n < |msgs|
    ensures Kept(msgs[..n + 1]) == Kept(msgs[..n]) + if msgs[n].token == "" then [] else [msgs[n]]
  {
    assert msgs[..n + 1][..n] == msgs[..n];
  }

  lemma {:induction false} AbsorbKeepsOk(msgs: seq<Incoming>, n: nat, key: int, b: Batch, a: Answer)
    requires n < |msgs| && BatchOk(Kept(msgs[..n]), b)
    ensures BatchOk(Kept(msgs[..n + 1]), Absorb(key, b, msgs[n], a))
  {
    var kept, m := Kept(msgs[..n]), msgs[n];
    KeptExtend(msgs, n);
    match Classify(m)
    case Skipped => assert kept + [] == kept;
    case Malformed => RefuseKeepsOk(kept, b, m, Error);
    case Ready(platform, kind) =>
      if kind.CallKind? && !a.callAllowed {
        RefuseKeepsOk(kept, b, m, Error);
      } else {
        BoundKeepsOk(kept, b, m, platform, kind, key, a.bind);
      }
  }

  /** Whatever the limiter and the store answer, a batch has one slot per message with a
      token, in order; each slot is either refused for good or owned by exactly one item that
      carries its message unchanged; and the call tokens spent are accounted for. */
  lemma {:induction false} ParseOk(key: int, msgs: seq<Incoming>, answers: seq<Answer>)
    requires |msgs| == |answers|
    ensures BatchOk(Kept(msgs), Parse(key, msgs, answers))
    decreases |msgs|
  {
    if msgs != [] {
      var n := |msgs| - 1;
      ParseOk(key, msgs[..n], answers[..n]);
      AbsorbKeepsOk(msgs, n, key, Parse(key, msgs[..n], answers[..n]), answers[n]);
      assert msgs[..n + 1] == msgs;
    }
  }

  lemma {:induction false} ParseExtend(key: int, msgs: seq<Incoming>, answers: seq<Answer>, n: nat, a: Answer)
    requires n < |msgs| && |answers| == n
    ensures Parse(key, msgs[..n + 1], answers + [a]) == Absorb(key, Parse(key, msgs[..n], answers), msgs[n], a)
  {
    assert msgs[..n + 1][..n] == msgs[..n] && (answers + [a])[..n] == answers;
  }

  // The message reaches BindToken: it is well formed and, if a call, within budget.
  predicate Admitted(m: Incoming, a: Answer) {
    Classify(m).Ready? && (Classify(m).kind.CallKind? ==> a.callAllowed)
  }

  // The promise to a message with a token, over its own fields: at most 4096 bytes for one of
  // the two platforms and of one of the four kinds, and, if a call, within the key's budget.
  predicate Acceptable(m: Incoming, a: Answer) {
    && |m.payload| <= 4096
    && (m.platform == "ios" || m.platform == "android")
    && (m.kind == "message" || m.kind == "mention" || m.kind == "call" || m.kind == "wake")
    && (m.kind == "call" ==> a.callAllowed)
  }

  lemma {:induction false} AdmittedIsAcceptable(m: Incoming, a: Answer)
    requires m.token != ""
    ensures Admitted(m, a) <==> Acceptable(m, a)
    ensures Admitted(m, a) ==> (Classify(m).kind.CallKind? <==> m.kind == "call")
  {
  }

  // What message m is told in its slot, and whether it has an item there.
  predicate Told(key: int, m: Incoming, a: Answer, r: Result, hasItem: bool) {
    && (hasItem <==> Acceptable(m, a) && a.bind == OwnedBy(key))
    && (hasItem ==> r == UNFILLED)
    && (r == Result(m.token, Forbidden) <==> Acceptable(m, a) && a.bind.OwnedBy? && a.bind.id != key)
    && (r == Result(m.token, Error) <==> !Acceptable(m, a) || a.bind.BindFailed?)
  }

  /** Message n, if it has a token, gets slot |Kept(msgs[..n])|.  The slot is forbidden exactly
      when the message is acceptable and its device is another key's, an item's exactly when it
      is acceptable and the device is this key's, and an error otherwise. */
  lemma {:induction false} ParseAt(key: int, msgs: seq<Incoming>, answers: seq<Answer>, n: nat)
    requires |msgs| == |answers| && n < |msgs| && msgs[n].token != ""
    ensures var b, slot := Parse(key, msgs, answers), |Kept(msgs[..n])|;
            slot < |b.results| && Told(key, msgs[n], answers[n], b.results[slot], HasItem(b.items, slot))
    decreases |msgs|
  {
    var last, slot := |msgs| - 1, |Kept(msgs[..n])|;
    var before := Parse(key, msgs[..last], answers[..last]);
    if n < last {
      assert msgs[..last][..n] == msgs[..n] && msgs[..last][n] == msgs[n] && answers[..last][n] == answers[n];
      ParseAt(key, msgs[..last], answers[..last], n);
      AbsorbKeepsSlot(key, before, msgs[last], answers[last], slot);
    } else {
      NoItemBeyond(key, msgs[..last], answers[..last]);
      AbsorbAddsSlot(key, before, msgs[last], answers[last]);
    }
  }

  lemma {:induction false} NoItemBeyond(key: int, msgs: seq<Incoming>, answers: seq<Answer>)
    requires |msgs| == |answers|
    ensures var b := Parse(key, msgs, answers); |b.results| == |Kept(msgs)| && !HasItem(b.items, |b.results|)
  {
    ParseOk(key, msgs, answers);
  }

  lemma {:induction false} AbsorbKeepsSlot(key: int, b: Batch, m: Incoming, a: Answer, slot: nat)
    requires slot < |b.results|
    ensures var b' := Absorb(key, b, m, a);
            && slot < |b'.results| && b'.results[slot] == b.results[slot]
            && (HasItem(b'.items, slot) <==> HasItem(b.items, slot))
  {
    var items' := Absorb(key, b, m, a).items;
    if items' != b.items {
      HasItemAppend(b.items, items'[|b.items|], slot);
    }
  }

  lemma {:induction false} AbsorbAddsSlot(key: int, b: Batch, m: Incoming, a: Answer)
    requires m.token != "" && !HasItem(b.items, |b.results|)
    ensures var b' := Absorb(key, b, m, a);
            && |b'.results| == |b.results| + 1
            && Told(key, m, a, b'.results[|b.results|], HasItem(b'.items, |b.results|))
  {
    AdmittedIsAcceptable(m, a);
    var items' := Absorb(key, b, m, a).items;
    if items' != b.items {
      HasItemAppend(b.items, items'[|b.items|], |b.results|);
    }
  }

  // The calls that passed the call limiter.
  function PaidCalls(msgs: seq<Incoming>, answers: seq<Answer>): nat
    requires |msgs| == |answers|
  {
    if msgs == [] then 0
    else
      var n := |msgs| - 1;
      PaidCalls(msgs[..n], answers[..n])
      + if msgs[n].token != "" && msgs[n].kind == "call" && Acceptable(msgs[n], answers[n]) then 1 else 0
  }

  lemma {:induction false} SpentIsPaid(key: int, msgs: seq<Incoming>, answers: seq<Answer>)
    requires |msgs| == |answers|
    ensures Parse(key, msgs, answers).spent == PaidCalls(msgs, answers)
    decreases |msgs|
  {
    if msgs != [] {
      var n := |msgs| - 1;
      SpentIsPaid(key, msgs[..n], answers[..n]);
      if msgs[n].token != "" {
        AdmittedIsAcceptable(msgs[n], answers[n]);
      }
    }
  }

  function JobOf(b: Batch, configured: set<Platform>, concurrency: int): Job {
    Job(b.items, b.results, configured, concurrency)
  }

  lemma {:induction false} BatchIsWellFormed(kept: seq<Incoming>, b: Batch, configured: set<Platform>, concurrency: int)
    requires BatchOk(kept, b)
    ensures WellFormed(JobOf(b, configured, concurrency))
  {
  }

  // ---------------------------------------------------------------------------------------
  // The response

  // Senders only ever returned what the provider clients return.
  predicate Honest(p: Pool) {
    forall i :: i in p.outs ==> ProviderAnswer(p.outs[i])
  }

  // A sent item has the status its own sender gave first, or an error if the sender gave
  // none; an item that was never sent is not_attempted.
  predicate ItemStatus(p: Pool, j: nat, status: Status) {
    if j < p.next then
      && j in p.outs && ProviderStatus(status)
      && status == if p.outs[j] == [] then Error else p.outs[j][0].status
    else
      status == NotAttempted
  }

  // One result per kept message, in order, under its own token and with a real status; what
  // the parse loop refused stays refused; and every item has the status it should.
  predicate Complete(kept: seq<Incoming>, b: Batch, p: Pool) {
    && |p.results| == |kept| == |b.results|
    && (forall i :: 0 <= i < |kept| ==> p.results[i].token == kept[i].token && p.results[i].status != Empty)
    && (forall i :: 0 <= i < |kept| && !HasItem(b.items, i) ==>
          p.results[i] == b.results[i] && (p.results[i].status == Error || p.results[i].status == Forbidden))
    && (forall j :: 0 <= j < |b.items| && b.items[j].slot < |kept| ==>
          ItemStatus(p, j, p.results[b.items[j].slot].status))
  }

  lemma {:induction false} ItemSlot(job: Job, p: Pool, j: nat)
    requires p.next <= |job.items| && DispatchRuns.Settled(job, p, p.next) && Honest(p) && j < |job.items|
    ensures var r := p.results[job.items[j].slot];
            r.token == job.items[j].msg.token && ItemStatus(p, j, r.status)
  {
  }

  lemma {:induction false} FreeSlot(job: Job, p: Pool, n: nat, k: nat)
    requires DispatchRuns.Settled(job, p, n) && k < |job.initial| && !HasItem(job.items, k)
    ensures p.results[k] == job.initial[k]
  {
    assert forall j :: 0 <= j < |job.items| ==> job.items[j].slot != k;
  }

  lemma {:induction false} SlotComplete(kept: seq<Incoming>, b: Batch, configured: set<Platform>,
                                        concurrency: int, p: Pool, i: nat)
    requires BatchOk(kept, b) && p.next <= |b.items| && i < |kept|
    requires DispatchRuns.Settled(JobOf(b, configured, concurrency), p, p.next) && Honest(p)
    ensures p.results[i].token == kept[i].token && p.results[i].status != Empty
    ensures !HasItem(b.items, i) ==> p.results[i] == b.results[i]
  {
    var job := JobOf(b, configured, concurrency);
    if HasItem(b.items, i) {
      var j :| 0 <= j < |b.items| && b.items[j].slot == i;
      ItemSlot(job, p, j);
      assert Carries(b.items[j], kept[i]);
    } else {
      FreeSlot(job, p, p.next, i);
    }
  }

  /** For every batch, every answer and every schedule of the pool, the response is complete. */
  lemma {:induction false} ResponseComplete(kept: seq<Incoming>, b: Batch, configured: set<Platform>,
                                            concurrency: int, p: Pool)
    requires BatchOk(kept, b) && Honest(p)
    requires p.next <= |b.items| && DispatchRuns.Settled(JobOf(b, configured, concurrency), p, p.next)
    ensures Complete(kept, b, p)
  {
    var job := JobOf(b, configured, concurrency);
    forall i | 0 <= i < |kept|
      ensures p.results[i].token == kept[i].token && p.results[i].status != Empty
      ensures !HasItem(b.items, i) ==> p.results[i] == b.results[i]
    {
      SlotComplete(kept, b, configured, concurrency, p, i);
    }
    forall j | 0 <= j < |b.items|
      ensures ItemStatus(p, j, p.results[b.items[j].slot].status)
    {
      ItemSlot(job, p, j);
    }
  }

  // ---------------------------------------------------------------------------------------
  // The refund

  predicate Refundable(item: Item, results: seq<Result>)
    requires item.slot < |results|
  {
    item.msg.kind.CallKind? && results[item.slot].status == NotAttempted
  }

  // How many of the first n items get their call token back.
  function Refunds(items: seq<Item>, results: seq<Result>, n: nat): nat
    requires n <= |items| && InRange(items, |results|)
  {
    if n == 0 then 0 else Refunds(items, results, n - 1) + if Refundable(items[n - 1], results) then 1 else 0
  }

  function AfterReturns(c: RateLimit.Config, s: RateLimit.State, k: RateLimit.Key, n: nat): RateLimit.State {
    if n == 0 then s else RateLimit.AfterReturn(c, AfterReturns(c, s, k, n - 1), k)
  }

  method RefundNotAttemptedCalls(lim: RateLimit.Limiter, key: int, items: seq<Item>, results: seq<Result>)
    requires InRange(items, |results|)
    modifies lim`buckets
    ensures lim.Contents() ==
            AfterReturns(lim.config, old(lim.Contents()), RateLimit.Registration(key), Refunds(items, results, |items|))
  {
    for i := 0 to |items|
      invariant lim.lastEvict == old(lim.lastEvict)
      invariant lim.Contents() ==
                AfterReturns(lim.config, old(lim.Contents()), RateLimit.Registration(key), Refunds(items, results, i))
    {
      if items[i].msg.kind == CallKind && results[items[i].slot].status == NotAttempted {
        lim.Return(RateLimit.Registration(key));
      }
    }
  }

  // not_attempted marks exactly the items from position n on.
  predicate MarksUnsent(items: seq<Item>, results: seq<Result>, n: nat) {
    && InRange(items, |results|)
    && forall i :: 0 <= i < |items| ==> (results[items[i].slot].status == NotAttempted <==> n <= i)
  }

  lemma {:induction false} SettledMarksUnsent(job: Job, p: Pool)
    requires p.next <= |job.items| && DispatchRuns.Settled(job, p, p.next) && Honest(p)
    ensures MarksUnsent(job.items, p.results, p.next)
  {
    forall i | 0 <= i < |job.items|
      ensures p.results[job.items[i].slot].status == NotAttempted <==> p.next <= i
    {
    }
  }

  lemma {:induction false} RefundsAreUnsentCalls(items: seq<Item>, results: seq<Result>, next: nat, n: nat)
    requires MarksUnsent(items, results, next) && next <= |items| && n <= |items|
    ensures Refunds(items, results, n) == if n <= next then 0 else CallsBelow(items, n) - CallsBelow(items, next)
  {
    if n > 0 {
      RefundsAreUnsentCalls(items, results, next, n - 1);
    }
  }

  /** Of the call tokens a request takes it keeps exactly those of the calls that reached a
      sender and of the calls that binding refused. */
  lemma {:induction false} BudgetConserved(b: Batch, configured: set<Platform>, concurrency: int, p: Pool)
    requires SpentOk(b) && Honest(p)
    requires p.next <= |b.items| && DispatchRuns.Settled(JobOf(b, configured, concurrency), p, p.next)
    ensures b.spent - Refunds(b.items, p.results, |b.items|) == CallsBelow(b.items, p.next) + b.lost
  {
    SettledMarksUnsent(JobOf(b, configured, concurrency), p);
    RefundsAreUnsentCalls(b.items, p.results, p.next, |b.items|);
  }

  function ReturnEvents(k: RateLimit.Key, at: real, n: nat): seq<RateLimit.Event> {
    seq(n, _ => RateLimit.Return(k, at))
  }

  lemma {:induction false} RefundIsRun(c: RateLimit.Config, s: RateLimit.State, k: RateLimit.Key, at: real, n: nat)
    ensures RateLimit.Final(c, s, ReturnEvents(k, at, n)) == AfterReturns(c, s, k, n)
    ensures RateLimit.Ordered(at, ReturnEvents(k, at, n))
    ensures LimiterRuns.Asked(ReturnEvents(k, at, n), k) == 0
    ensures LimiterRuns.Returned(ReturnEvents(k, at, n), k) == n
  {
    if n > 0 {
      var evs, e := ReturnEvents(k, at, n - 1), RateLimit.Return(k, at);
      RefundIsRun(c, s, k, at, n - 1);
      assert ReturnEvents(k, at, n) == evs + [e] == [e] + evs;
      RateLimit.FinalConcat(c, s, evs, [e]);
      assert ReturnEvents(k, at, n)[1..] == evs;
    }
  }

  /** A caller told not_attempted may retry: after a request has refunded its m unsent calls,
      each of the key's next min(m, burst) calls passes the call limiter, whatever other keys
      do and however long it waits. */
  lemma {:induction false} RetryAfterRefund(c: RateLimit.Config, s: RateLimit.State, key: int,
                                            items: seq<Item>, results: seq<Result>,
                         now: real, later: seq<RateLimit.Event>, i: nat)
    requires RateLimit.Sound(c) && RateLimit.Valid(c, s, now) && RateLimit.Ordered(now, later)
    requires InRange(items, |results|)
    requires i < |later| && later[i] == RateLimit.Allow(RateLimit.Registration(key), later[i].at)
    requires LimiterRuns.Asked(later[..i], RateLimit.Registration(key)) < Refunds(items, results, |items|)
    requires LimiterRuns.Asked(later[..i], RateLimit.Registration(key)) < c.burst
    ensures var k, m := RateLimit.Registration(key), Refunds(items, results, |items|);
            RateLimit.Answers(c, AfterReturns(c, s, k, m), later)[i]
  {
    var k, m := RateLimit.Registration(key), Refunds(items, results, |items|);
    RefundIsRun(c, s, k, now, m);
    assert RateLimit.EndTime(now, ReturnEvents(k, now, m)) == now;
    LimiterRuns.RetryFromState(c, s, ReturnEvents(k, now, m), later, k, now, i);
  }
}
