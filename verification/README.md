# Push relay: a Dafny model and its proofs

The relay forwards wake-up pushes to APNs and FCM on behalf of registered servers. This
project models the stateful parts that meet in `/v1/send` and proves what holds over
every run of them:

- the token-bucket **call limiter** (`RateLimit.dfy`, `LimiterRuns.dfy`, `LimiterRefinement.dfy`);
- the **key store** with device-token ownership and its lazy sweep (`KeyStore.dfy`, `StoreRuns.dfy`, `Provenance.dfy`);
- the **worker pool** that drains one request under a deadline (`Dispatch.dfy`, `DispatchRuns.dfy`), with the vocabulary and the stub sender it uses (`Push.dfy`);
- the **request loop** around the pool (`Send.dfy`);
- the **whole relay**, any number of requests in flight over one limiter and one store (`Relay.dfy`, `RelaySafety.dfy`, `RelayProgress.dfy`).

`dafny verify dfyconfig.toml` checks all of it.

## How it is modelled

Code that updates an object in place is a class (`Limiter`, `Store`, `Unconfigured`) or a
method with a loop (`ParseBatch`, `MarkUnattempted`, `RefundNotAttemptedCalls`). Each method
is proved to do what a function on values says, and the theorems about runs are about those
functions.

Code that runs concurrently is a transition system: a state, an `Enabled` predicate, an
`Apply` function and a `Legal` sequence of actions. One action is one thing that happens
atomically in the relay: an unbuffered channel handoff, a call under the limiter's mutex, a
database transaction on the single connection, a clock reading. The sweep of stale tokens is
four actions (check and claim, take cutoff, delete, or fail to delete) because binds land in
between. Go's `select` may hand out work after the context has ended, and the model lets it.

The fields named as history (`contacts`, `outs`, `log`, `sweeps`, `trace`, `answers`, `passes`,
`refunded`) record what happened; no step's effect on the other fields depends on them.

Assumptions:

- Token counts are exact reals where the code uses floats. Time is in seconds and never runs
  backwards; `Unix` is the floor.
- A store error leaves the tables as they were.
- In the relay a provider call reports delivered, unregistered or error, as both clients and
  the stub do. `SentinelExact` says exactly what depends on that.
- Limits are read as configured. Theorems that need `burst >= 1` and `rate >= 0` say so with
  `Sound`; `TransparentExactlyWhenRefilled` covers every rate and every burst.

Every lemma switches automatic induction off, so each inductive proof is the one written.

Two ways the limiter departs from a plain token bucket, both kept as the code has them:

- Forgetting an idle bucket is visible to callers exactly when ten minutes do not refill it.
  `TransparentExactlyWhenRefilled` gives the condition, `StarvedRun` the run that shows it,
  and `DefaultSettings` that the shipped registration limiter is on the visible side.
- With a burst below one it still lets every unknown key through once (the `c.burst < 1`
  case of `NotTransparent`).

## Model

| member | source | states |
|---|---|---|
| `RateLimit.Limiter.Allow` | internal/ratelimit/ratelimit.go:42-65 | the answer and the new buckets are those of the value-level limiter that every run theorem is about; granted or refused, the call becomes the key's last use; another key's bucket goes exactly when the last sweep is over 300 s old and that bucket over 600 s idle, and is otherwise untouched |
| `RateLimit.Limiter.Return` | internal/ratelimit/ratelimit.go:71-82 | gives back one token under the ceiling, moves no last use, adds no bucket and touches no other key |
| `RateLimit.Limiter.EvictIdle` | internal/ratelimit/ratelimit.go:85-92 | the loop removes exactly the buckets unused for 600 s and leaves the others as they are |
| `RateLimit.StepLevel` | internal/ratelimit/ratelimit.go:42-82 | the spendable level of any key moves only by its own grants and returns, the refill, the ceiling and the sweep, and an Allow is granted exactly when that level is at least one |
| `RateLimit.AllowRemembers` | internal/ratelimit/ratelimit.go:45-64 | the same of one Allow in a run: its own key is remembered as of now, and a key is swept exactly under the 300 s and 600 s conditions |
| `RateLimit.RunKeepsValid` | internal/ratelimit/ratelimit.go:42-92 | in every run every bucket stays between zero and burst and within ten minutes of the last sweep |
| `LimiterRuns.RunSpends` | internal/ratelimit/ratelimit.go:42-92 | amortised bound: grants minus what returns really credited are paid for by the drop in level, the refill and the sweeps |
| `LimiterRuns.WindowBound` | internal/ratelimit/ratelimit.go:42-92 | in any window of length T of any run, one key's net grants are at most burst + rate*T plus n times the sweep's gain, with n at most 1 + T/600 sweeps of that key |
| `LimiterRuns.SweepGainIsShortfall` | internal/ratelimit/ratelimit.go:84-92 | one sweep gives away max(0, burst - 600*rate) |
| `LimiterRuns.LastUseIsLatestAsk` | internal/ratelimit/ratelimit.go:50-64 | in every run a remembered bucket's last use is the time of its key's latest Allow, granted or refused |
| `LimiterRuns.AskingIsRemembered` | internal/ratelimit/ratelimit.go:45-64 | a key is never swept in a run whose events all come within 600 s of its latest Allow, however often it is refused |
| `LimiterRuns.AskingBound` | internal/ratelimit/ratelimit.go:42-92 | so from any Allow on, for as long as its key keeps asking, the key spends net at most burst + rate*T with no sweep gain |
| `LimiterRuns.RetryGuarantee` | internal/ratelimit/ratelimit.go:67-82 | after m returns for a key, with any other traffic and any delay, swept or not, its next min(m, burst) Allow calls are granted |
| `LimiterRuns.MapHoldsRecentKeysOnly` | internal/ratelimit/ratelimit.go:45-59 | after any Allow the map holds only keys that some Allow named in the last fifteen minutes |
| `LimiterRefinement.RunsAgree` | internal/ratelimit/ratelimit.go:42-92 | when ten minutes refill a bucket, lazy refill, sweep and return-before-refill answer every run exactly as a limiter that never forgets and refills continuously |
| `LimiterRefinement.StarvedRun` | internal/ratelimit/ratelimit.go:50-53 | otherwise a concrete run: draining the bucket twice with a pause of just over ten minutes is all granted, while the simple limiter refuses part of it |
| `LimiterRefinement.TransparentExactlyWhenRefilled` | internal/ratelimit/ratelimit.go:42-92 | no run tells the two apart if and only if 1 <= burst <= 600*rate, for every rate and burst |
| `LimiterRefinement.DefaultSettings` | internal/api/server.go:40-42 | with the shipped settings this holds of the send and call limiters and fails for the registration limiter |
| `Push.ParsePlatform` | internal/api/send.go:249-256 | reads exactly the two platform names, each as itself |
| `Push.ParseKind` | internal/api/send.go:258-265 | reads exactly the four kind names, each as itself |
| `Push.Unconfigured.Send` | internal/push/push.go:101-110 | one error result per message, in order and under its token, and a log line exactly for the first non-empty call of the platform in a request scope |
| `Push.Unconfigured.LogRejection` | internal/push/push.go:116-125 | writes a line exactly when there is no scope or the platform is new to it |
| `Dispatch.PoolSize` | internal/api/send.go:190-196 | at most the configured concurrency (at least one) and at most one worker per item |
| `Dispatch.MarkUnattempted` | internal/api/send.go:229-233 | the sweep loop over the results array does what `Marked` says |
| `Dispatch.MarkedAt` | internal/api/send.go:229-233 | every item's own slot is rewritten only if it is still empty, and no other slot changes |
| `Dispatch.StepKeepsInv` | internal/api/send.go:198-225 | every step keeps: each index below the feeder is with exactly one worker or finished, and every slot holds its own item's status or what dispatch found there |
| `DispatchRuns.DispatchOutcome` | internal/api/send.go:176-234 | every finished run sent exactly a prefix of the items, once each and in order; each of their slots holds, under its own token, the first status its own Send call returned, or error if that call returned nothing (a returned empty status ends as not_attempted, see `SentinelExact`); the rest are not_attempted under their own tokens, other slots untouched; and the prefix is everything unless the context ended |
| `DispatchRuns.FinishWrites` | internal/api/send.go:204-212 | one returning Send call writes the first returned status, or error for an empty return, into its item's own slot and into no other |
| `DispatchRuns.EveryPrefixPossible` | internal/api/send.go:216-233 | the outcome is no narrower than that: with the context ended before the first handoff, for every n up to the batch size some run finishes having sent exactly n items |
| `DispatchRuns.SentinelExact` | internal/api/send.go:227-233 | not_attempted marks exactly the unsent items if and only if no sender reported the empty status or not_attempted |
| `DispatchRuns.NoSharedSlots` | internal/api/send.go:190-214 | in every reachable state sends in flight stay within the bound, busy workers hold distinct items and slots, and a finishing worker is the first to write its slot |
| `DispatchRuns.Progress` | internal/api/send.go:198-225 | no deadlock: every unfinished state has a step other than cancellation |
| `DispatchRuns.DispatchTerminates` | internal/api/send.go:198-233 | no run of n items has more than 4n + 4 steps |
| `DispatchRuns.OneLinePerStub` | internal/push/push.go:112-125 | over a request, in any interleaving, a platform without credentials logs exactly once if one of its items was attempted and never otherwise |
| `Send.ParseBatch` | internal/api/send.go:92-143 | the loop produces the batch of `Parse`, which satisfies `BatchOk`, and tells every message with a token, in its slot, what its own fields and answers call for, as spelled out for `ParseAt` |
| `Send.KeptExact` | internal/api/send.go:95-98 | the messages that get a slot are exactly those with a token, in request order |
| `Send.ParseOk` | internal/api/send.go:92-143 | whatever limiter and store answer, there is one slot per message with a token, in order; each is refused for good or owned by one item carrying its message unchanged; the call tokens spent are those of call items plus those binding refused |
| `Send.ParseAt` | internal/api/send.go:95-142 | a message with a token gets the slot after those of the kept messages before it. It becomes an item if and only if its payload is at most 4096 bytes, its platform is "ios" or "android", its kind is one of the four names, the limiter granted it if it is a call, and its device is this key's; it is forbidden if and only if the same holds and the device is another key's; it is an error if and only if one of those fails or the bind errs |
| `Send.SpentIsPaid` | internal/api/send.go:113-118 | the tokens a batch takes are exactly its acceptable calls, told from their own fields, that the call limiter granted |
| `Send.ResponseComplete` | internal/api/send.go:92-145 | after dispatch every result has its message's token and a real status, rejections are untouched, a sent item has the status its own sender gave first (error if none), and an unsent one not_attempted |
| `Send.RefundNotAttemptedCalls` | internal/api/send.go:241-247 | the refund loop performs exactly one Return per not_attempted call |
| `Send.BudgetConserved` | internal/api/send.go:113-150 | tokens taken minus tokens refunded are those of calls sent plus those of calls refused by binding |
| `Send.RetryAfterRefund` | internal/api/send.go:236-247 | after the refund loop the key's next min(m, burst) calls pass the limiter |
| `KeyStore.Store.Open` | internal/keys/keys.go:64-131 | keys, devices and owners stay; if the column was just added, exactly the rows with last-seen 0 become seen in the opening second |
| `KeyStore.Store.Issue` | internal/keys/keys.go:143-174 | refuses exactly when max > 0 and the table has max rows (revoked ones count) or the hash is taken, and otherwise adds one unrevoked, unused row under a new id |
| `KeyStore.Store.Verify` | internal/keys/keys.go:178-197 | accepts exactly an existing, unrevoked key by its hash and changes at most that key's last-used second |
| `KeyStore.Store.Revoke` | internal/keys/keys.go:219-229 | succeeds exactly for an existing, unrevoked key; then its row is revoked as of this second, and no other row or field changes |
| `KeyStore.Store.BindToken` | internal/keys/keys.go:244-281 | answers the asking key for a device no row names and the row's owner otherwise; binds a free device, refreshes only the owner's, leaves another's alone, and then sweeps if due |
| `KeyStore.Store.MaybePruneStaleTokens` | internal/keys/keys.go:290-307 | sweeps exactly when pruning is on and 3600 s have passed, claiming the gate, and then removes exactly the rows last seen before the cutoff second |
| `KeyStore.SequentialCallsStayRecent` | internal/keys/keys.go:279-307 | once a sweep has run, every binding any later call leaves was seen within the retention plus one hour of that call's check |
| `StoreRuns.CallIsRun` | internal/keys/keys.go:244-307 | the separate steps of one BindToken call, taken without interruption, do exactly what the method is proved to do |
| `StoreRuns.StoreSafety` | internal/keys/keys.go:143-307 | in every interleaving: two keys never pass for one device within the retention (never at all with pruning off), no sweep removes a device within the retention of a pass, sweeps are an hour apart, ids and hashes stay unique, the ceiling holds and every owner exists |
| `StoreRuns.StepKeepsHeld` | internal/keys/keys.go:251-304 | a pass protects its device until the retention runs out, even against a sweep whose cutoff was computed before the owner's refresh |
| `StoreRuns.RevokedForever` | internal/keys/keys.go:178-229 | a revoked row keeps its revocation second in every run, and no later Verify or Revoke of it succeeds |
| `StoreRuns.RevokeIsFinal` | internal/keys/keys.go:178-229 | if a step of a run revokes a key, no later step of the run verifies it, and its row says revoked in that step's second ever after |
| `StoreRuns.KeyLife` | internal/keys/keys.go:143-229 | a key issued in a run exists under its hash from then on, and Verify accepts it, and Revoke finds it, exactly until the first step that revokes it |
| `StoreRuns.SessionsExact` | internal/keys/keys.go:178-197 | in every run the keys that may bind devices are exactly those some Verify has accepted |
| `StoreRuns.UpgradeKeepsBindings` | internal/keys/keys.go:110-126 | a binding from before the last-seen column is safe from other keys for a whole retention after the upgrade |
| `Provenance.BindingsExplained` | internal/keys/keys.go:252-275 | in every run a device's owner is the first key to pass since its last removal and its last-seen second is that owner's latest pass; refused attempts change neither |
| `Provenance.HistoryDecidesBind` | internal/keys/keys.go:244-281 | the converse, in every run: asking for a device the history leaves unclaimed, or says is the asker's, passes, is logged and leaves the device with the asker as seen in that second; asking for another's changes nothing; and the history always says one or the other |
| `Provenance.HistoryDecidesDelete` | internal/keys/keys.go:303-304 | in every run a delete removes exactly the devices whose owner's latest pass lies before the cutoff |
| `RelaySafety.ReachableInv` | internal/api/send.go:61-156 | every state the relay reaches, with any number of requests interleaving, satisfies the joint invariant of limiter, store, pools and requests |
| `RelaySafety.CallCeiling` | internal/api/send.go:113-150 | over a whole run, with any number of concurrent requests, the calls of one key that ever reach a sender number at most burst + rate*T plus the gain of at most 1 + T/600 sweeps |
| `RelaySafety.AnsweredBudget` | internal/api/send.go:145-150 | an answered request keeps exactly the call tokens of its sent calls and of those binding refused |
| `RelaySafety.ContactsRightful` | internal/api/send.go:119-143 | whatever reaches a sender was sent by a key that had passed the ownership check for that platform and token, through that platform's sender, with the caller's kind and payload |
| `RelaySafety.BindDecides` | internal/api/send.go:119-143 | a bind step for a device without a row, or with the requester's, makes the message an item and leaves the device with the requester as of that second; for another's device it answers forbidden and leaves the tables alone |
| `RelaySafety.DevicesProtected` | internal/api/send.go:119-143 | two different keys that ever reach one device, in any requests of a run, passed more than the retention apart, and with pruning off it never happens |
| `RelaySafety.AnswersComplete` | internal/api/send.go:92-155 | every answered request has the batch that `Parse` gives for the answers it got, one real result per message with a token, in order, rejections as refused, on each sent item the status its own sender returned first, not_attempted on the others, and refunds exactly for not_attempted calls |
| `RelaySafety.RetryGranted` | internal/api/send.go:236-247 | in any run, after a request has given back m call tokens while its key asked for none, the key's next min(m, burst) call checks in any requests are granted |
| `RelayProgress.NeverStuck` | internal/api/send.go:92-156 | an unanswered request can always take a step of its own |
| `RelayProgress.EveryRequestEnds` | internal/api/send.go:92-156 | in every interleaving a request of n messages takes at most 7n + 8 steps of its own |
| `RelayProgress.UsableKeyIsServed` | internal/api/send.go:61-156 | in every reachable state an unrevoked key passes Verify, may begin any batch within the size limit, and that request can run to its answer on its own steps |

## Left out

- HTTP routing, JSON decoding, header parsing, status codes, the admin and register handlers and log text: plumbing with one-branch facts.
- The general send limiter and the request-size check before the parse loop: they only delay or refuse the start of a request; the send limiter is the same `Limiter`.
- Building APNs and FCM requests, fetching OAuth tokens and classifying provider errors: foreign clients, kept as the statuses they report.
- SHA-256, base64 and random key generation: the store sees a secret only by its hash, and `Issue` fails on a taken hash.
- SQL text, WAL, connection handling, crashes partway through the migration, and goroutine panics: outside the step model.
- Floating-point rounding in the limiter: idealised to exact arithmetic.
- Overflow of a retention given in days when it becomes a duration: retention is an unbounded number of seconds.
- `tally` and `List`: they only count or list.
