/**
 The key store under concurrent requests.  Each transaction is one step, because the relay
 shares a single connection.  The lazy sweep is not one transaction: a BindToken first
 commits, later checks whether a sweep is due and claims it, later computes its cutoff and
 later still deletes, and anything may happen in between.
 */
module StoreRuns {
  import opened Push
  import opened KeyStore

  datatype Settings = Settings(retention: real, maxKeys: int)

  // History: a key passed the ownership check for a device, or a sweep removed devices.
  datatype Entry = Passed(key: int, device: Device, at: int) | Removed(devices: set<Device>, at: int)

  // `unchecked`: committed binds that have yet to look at the sweep gate.  `claimed`: sweeps
  // claimed but without a cutoff.  `cutoffs`: sweeps about to delete.  `sessions`: keys some
  // Verify has accepted.  `sweeps` and `log` are history.
  datatype System = System(
    tables: Tables,
    lastPrune: real,
    clock: real,
    unchecked: nat,
    claimed: nat,
    cutoffs: multiset<int>,
    sessions: set<int>,
    sweeps: seq<real>,
    log: seq<Entry>)

  // A step that fails with a store error, or a refused Issue, Verify or Revoke, is a Wait.
  datatype Action =
    | IssueKey(hash: string, tag: string, at: real)
    | VerifyKey(id: int, at: real)
    | StampKey(id: int, at: real)
    | RevokeKey(id: int, at: real)
    | BindCommit(key: int, device: Device, at: real)
    | CheckSweep(checkAt: real, at: real)
    | TakeCutoff(at: real)
    | RunDelete(cutoff: int, at: real)
    | DropDelete(cutoff: int, at: real)
    | Wait(at: real)

  function Opened(tables: Tables, now: real): System {
    System(tables, now, now, 0, 0, multiset{}, {}, [], [])
  }

  predicate Enabled(cfg: Settings, s: System, a: Action) {
    s.clock <= a.at &&
    match a
    case IssueKey(hash, _, _) => !AtCeiling(s.tables, cfg.maxKeys) && !HashTaken(s.tables, hash)
    case VerifyKey(id, _) => Usable(s.tables, id)
    case StampKey(id, _) => id in s.sessions && id in s.tables.keys
    case RevokeKey(id, _) => Usable(s.tables, id)
    case BindCommit(key, _, _) => key in s.sessions
    // Both readings happen under the gate's mutex, so only the gate's own times bound the first.
    case CheckSweep(checkAt, at) => s.unchecked > 0 && s.lastPrune <= checkAt <= at
    case TakeCutoff(_) => s.claimed > 0
    case RunDelete(cutoff, _) => cutoff in s.cutoffs
    case DropDelete(cutoff, _) => cutoff in s.cutoffs
    case Wait(_) => true
  }

  predicate Passes(s: System, key: int, d: Device) {
    OwnerAfterBind(s.tables, key, d) == key
  }

  function Apply(cfg: Settings, s: System, a: Action): System
    requires Enabled(cfg, s, a)
  {
    var s' := s.(clock := a.at);
    match a
    case IssueKey(hash, tag, at) => s'.(tables := AfterIssue(s.tables, hash, tag, at))
    case VerifyKey(id, _) => s'.(sessions := s.sessions + {id})
    case StampKey(id, at) => s'.(tables := AfterStamp(s.tables, id, at))
    case RevokeKey(id, at) => s'.(tables := AfterRevoke(s.tables, id, at))
    case BindCommit(key, d, at) =>
      s'.(tables := AfterBind(s.tables, key, d, at),
          unchecked := s.unchecked + 1,
          log := if Passes(s, key, d) then s.log + [Passed(key, d, Unix(at))] else s.log)
    case CheckSweep(checkAt, at) =>
      if Due(Snapshot(s.tables, s.lastPrune), cfg.retention, checkAt) then
        s'.(unchecked := s.unchecked - 1, lastPrune := at, claimed := s.claimed + 1, sweeps := s.sweeps + [at])
      else s'.(unchecked := s.unchecked - 1)
    case TakeCutoff(at) =>
      s'.(claimed := s.claimed - 1, cutoffs := s.cutoffs + multiset{Unix(at - cfg.retention)})
    case RunDelete(cutoff, at) =>
      s'.(tables := AfterPrune(s.tables, cutoff),
          cutoffs := s.cutoffs - multiset{cutoff},
          log := s.log + [Removed(Stale(s.tables, cutoff), Unix(at))])
    case DropDelete(cutoff, _) => s'.(cutoffs := s.cutoffs - multiset{cutoff})
    case Wait(_) => s'
  }

  predicate Legal(cfg: Settings, s: System, acts: seq<Action>)
    decreases |acts|
  {
    acts != [] ==> Enabled(cfg, s, acts[0]) && Legal(cfg, Apply(cfg, s, acts[0]), acts[1..])
  }

  function Exec(cfg: Settings, s: System, acts: seq<Action>): System
    requires Legal(cfg, s, acts)
    decreases |acts|
  {
    if acts == [] then s else Exec(cfg, Apply(cfg, s, acts[0]), acts[1..])
  }

  // ---------------------------------------------------------------------------------------
  // One BindToken call on its own

  function SweepSteps(cfg: Settings, at: real): seq<Action> {
    [TakeCutoff(at), RunDelete(Unix(at - cfg.retention), at)]
  }

  function CallSteps(cfg: Settings, s: System, call: Call): seq<Action> {
    [BindCommit(call.key, call.device, call.now)] + ([CheckSweep(call.checkAt, call.claimAt)]
    + if Due(Snapshot(s.tables, s.lastPrune), cfg.retention, call.checkAt) then SweepSteps(cfg, call.cutoffAt) else [])
  }

  lemma {:induction false} LegalCons(cfg: Settings, s: System, a: Action, rest: seq<Action>)
    requires Enabled(cfg, s, a) && Legal(cfg, Apply(cfg, s, a), rest)
    ensures Legal(cfg, s, [a] + rest) && Exec(cfg, s, [a] + rest) == Exec(cfg, Apply(cfg, s, a), rest)
  {
    assert ([a] + rest)[1..] == rest;
  }

  lemma {:induction false} SweepIsRun(cfg: Settings, s: System, at: real)
    requires s.claimed > 0 && s.clock <= at
    ensures Legal(cfg, s, SweepSteps(cfg, at))
    ensures var s' := Exec(cfg, s, SweepSteps(cfg, at));
            s'.tables == AfterPrune(s.tables, Unix(at - cfg.retention)) && s'.lastPrune == s.lastPrune
  {
    var take, delete := TakeCutoff(at), RunDelete(Unix(at - cfg.retention), at);
    LegalCons(cfg, Apply(cfg, s, take), delete, []);
    LegalCons(cfg, s, take, [delete]);
    assert SweepSteps(cfg, at) == [take] + [delete] && [delete] + [] == [delete];
  }

  /** The steps of one call, taken without interruption, are a run and do what the method
      Store.BindToken is proved to do. */
  lemma {:induction false} CallIsRun(cfg: Settings, s: System, call: Call)
    requires call.key in s.sessions && s.lastPrune <= s.clock
    requires s.clock <= call.now <= call.checkAt <= call.claimAt <= call.cutoffAt
    ensures Legal(cfg, s, CallSteps(cfg, s, call))
    ensures var s' := Exec(cfg, s, CallSteps(cfg, s, call));
            Snapshot(s'.tables, s'.lastPrune) == AfterBindToken(Snapshot(s.tables, s.lastPrune), cfg.retention, call)
  {
    var bind, check := BindCommit(call.key, call.device, call.now), CheckSweep(call.checkAt, call.claimAt);
    var s1 := Apply(cfg, s, bind);
    var s2 := Apply(cfg, s1, check);
    var due := Due(Snapshot(s.tables, s.lastPrune), cfg.retention, call.checkAt);
    if due {
      SweepIsRun(cfg, s2, call.cutoffAt);
    }
    var rest := if due then SweepSteps(cfg, call.cutoffAt) else [];
    LegalCons(cfg, s1, check, rest);
    LegalCons(cfg, s, bind, [check] + rest);
  }

  // ---------------------------------------------------------------------------------------
  // Keys

  // Ids are never reused, hashes are unique and the ceiling holds.
  predicate RowsInv(cfg: Settings, t: Tables) {
    && (forall id :: id in t.keys ==> id < t.nextId)
    && (forall i, j :: i in t.keys && j in t.keys && t.keys[i].hash == t.keys[j].hash ==> i == j)
    && (cfg.maxKeys > 0 ==> |t.keys| <= cfg.maxKeys)
  }

  // Every key that a session or a binding names exists.
  predicate RefsInv(s: System) {
    && s.sessions <= s.tables.keys.Keys
    && (forall d :: d in s.tables.tokens ==> s.tables.tokens[d].owner in s.tables.keys)
  }

  predicate KeysInv(cfg: Settings, s: System) {
    RowsInv(cfg, s.tables) && RefsInv(s)
  }

  lemma {:induction false} IssueKeepsRows(cfg: Settings, t: Tables, hash: string, tag: string, now: real)
    requires RowsInv(cfg, t) && !AtCeiling(t, cfg.maxKeys) && !HashTaken(t, hash)
    ensures RowsInv(cfg, AfterIssue(t, hash, tag, now))
  {
    var keys := AfterIssue(t, hash, tag, now).keys;
    assert keys.Keys == t.keys.Keys + {t.nextId};
    assert |keys.Keys| == |t.keys.Keys| + 1;
  }

  lemma {:induction false} UpdateKeepsRows(cfg: Settings, t: Tables, id: int, row: KeyRow)
    requires RowsInv(cfg, t) && id in t.keys && row.hash == t.keys[id].hash
    ensures RowsInv(cfg, t.(keys := t.keys[id := row]))
    ensures t.keys[id := row].Keys == t.keys.Keys
  {
    assert t.keys[id := row].Keys == t.keys.Keys;
    assert |t.keys[id := row].Keys| == |t.keys.Keys|;
  }

  lemma {:induction false} StepKeepsRows(cfg: Settings, s: System, a: Action)
    requires RowsInv(cfg, s.tables) && Enabled(cfg, s, a)
    ensures RowsInv(cfg, Apply(cfg, s, a).tables)
    ensures s.tables.keys.Keys <= Apply(cfg, s, a).tables.keys.Keys
  {
    var t' := Apply(cfg, s, a).tables;
    match a
    case IssueKey(hash, tag, at) => IssueKeepsRows(cfg, s.tables, hash, tag, at);
    case StampKey(id, _) => UpdateKeepsRows(cfg, s.tables, id, t'.keys[id]);
    case RevokeKey(id, _) => UpdateKeepsRows(cfg, s.tables, id, t'.keys[id]);
    case _ =>
  }

  lemma {:induction false} StepKeepsKeys(cfg: Settings, s: System, a: Action)
    requires KeysInv(cfg, s) && Enabled(cfg, s, a)
    ensures KeysInv(cfg, Apply(cfg, s, a))
  {
    StepKeepsRows(cfg, s, a);
  }

  lemma {:induction false} RunConcat(cfg: Settings, s: System, a: seq<Action>, b: seq<Action>)
    requires Legal(cfg, s, a + b)
    ensures Legal(cfg, s, a) && Legal(cfg, Exec(cfg, s, a), b)
    ensures Exec(cfg, s, a + b) == Exec(cfg, Exec(cfg, s, a), b)
    decreases |a|
  {
    if a == [] {
      assert a + b == b;
    } else {
      assert (a + b)[1..] == a[1..] + b;
      RunConcat(cfg, Apply(cfg, s, a[0]), a[1..], b);
    }
  }

  lemma {:induction false} RunKeepsKeys(cfg: Settings, s: System, acts: seq<Action>)
    requires KeysInv(cfg, s) && Legal(cfg, s, acts)
    ensures KeysInv(cfg, Exec(cfg, s, acts))
    decreases |acts|
  {
    if acts != [] {
      StepKeepsKeys(cfg, s, acts[0]);
      RunKeepsKeys(cfg, Apply(cfg, s, acts[0]), acts[1..]);
    }
  }

  // Some step revokes the key.
  predicate Revoked(acts: seq<Action>, id: int) {
    exists j :: 0 <= j < |acts| && acts[j] == RevokeKey(id, acts[j].at)
  }

  /** A key once revoked stays revoked as of the same second, and no later Verify or Revoke
      of it succeeds. */
  lemma {:induction false} RevokedForever(cfg: Settings, s: System, acts: seq<Action>, id: int, at: int)
    requires KeysInv(cfg, s) && Legal(cfg, s, acts)
    requires id in s.tables.keys && s.tables.keys[id].revokedAt == Some(at)
    ensures id in Exec(cfg, s, acts).tables.keys && Exec(cfg, s, acts).tables.keys[id].revokedAt == Some(at)
    ensures forall j :: 0 <= j < |acts| ==> acts[j] != VerifyKey(id, acts[j].at) && acts[j] != RevokeKey(id, acts[j].at)
    decreases |acts|
  {
    if acts != [] {
      StepKeepsKeys(cfg, s, acts[0]);
      RevokedForever(cfg, Apply(cfg, s, acts[0]), acts[1..], id, at);
      assert forall j :: 0 < j < |acts| ==> acts[j] == acts[1..][j - 1];
    }
  }

  /** From the step that revokes a key on, its row carries that second for good, and no Verify
      that looks later accepts it. */
  lemma {:induction false} RevokeIsFinal(cfg: Settings, s: System, acts: seq<Action>, i: nat, id: int, at: real)
    requires KeysInv(cfg, s) && Legal(cfg, s, acts) && i < |acts| && acts[i] == RevokeKey(id, at)
    ensures var s' := Exec(cfg, s, acts);
            id in s'.tables.keys && s'.tables.keys[id].revokedAt == Some(at.Floor)
    ensures forall j :: i < j < |acts| ==> acts[j] != VerifyKey(id, acts[j].at) && acts[j] != RevokeKey(id, acts[j].at)
    decreases |acts|
  {
    var s' := Apply(cfg, s, acts[0]);
    StepKeepsKeys(cfg, s, acts[0]);
    if i == 0 {
      RevokedForever(cfg, s', acts[1..], id, at.Floor);
    } else {
      RevokeIsFinal(cfg, s', acts[1..], i - 1, id, at);
    }
    assert forall j :: 0 < j < |acts| ==> acts[j] == acts[1..][j - 1];
  }

  // A usable key's row keeps its hash, and stays usable exactly until a step revokes it.
  lemma {:induction false} RowLife(cfg: Settings, s: System, acts: seq<Action>, id: int)
    requires KeysInv(cfg, s) && Legal(cfg, s, acts)
    requires id in s.tables.keys && s.tables.keys[id].revokedAt == None
    ensures var s' := Exec(cfg, s, acts);
            && id in s'.tables.keys && s'.tables.keys[id].hash == s.tables.keys[id].hash
            && (s'.tables.keys[id].revokedAt == None <==> !Revoked(acts, id))
    decreases |acts|
  {
    if acts != [] {
      var a, s' := acts[0], Apply(cfg, s, acts[0]);
      StepKeepsKeys(cfg, s, a);
      if a == RevokeKey(id, a.at) {
        RevokedForever(cfg, s', acts[1..], id, a.at.Floor);
        HashStays(cfg, s', acts[1..], id);
      } else {
        RowLife(cfg, s', acts[1..], id);
        RevokedTail(acts, id);
      }
    }
  }

  lemma {:induction false} RevokedTail(acts: seq<Action>, id: int)
    requires acts != [] && acts[0] != RevokeKey(id, acts[0].at)
    ensures Revoked(acts, id) <==> Revoked(acts[1..], id)
  {
    if Revoked(acts, id) {
      var j :| 0 <= j < |acts| && acts[j] == RevokeKey(id, acts[j].at);
      assert acts[1..][j - 1] == acts[j];
    }
    if Revoked(acts[1..], id) {
      var j :| 0 <= j < |acts[1..]| && acts[1..][j] == RevokeKey(id, acts[1..][j].at);
      assert acts[j + 1] == acts[1..][j];
    }
  }

  lemma {:induction false} HashStays(cfg: Settings, s: System, acts: seq<Action>, id: int)
    requires KeysInv(cfg, s) && Legal(cfg, s, acts) && id in s.tables.keys
    ensures id in Exec(cfg, s, acts).tables.keys
    ensures Exec(cfg, s, acts).tables.keys[id].hash == s.tables.keys[id].hash
    decreases |acts|
  {
    if acts != [] {
      StepKeepsKeys(cfg, s, acts[0]);
      HashStays(cfg, Apply(cfg, s, acts[0]), acts[1..], id);
    }
  }

  /** A key issued in a run exists under its hash from then on, and Verify accepts it exactly
      until the first step that revokes it. */
  lemma {:induction false} KeyLife(cfg: Settings, s: System, acts: seq<Action>, i: nat)
    requires KeysInv(cfg, s) && Legal(cfg, s, acts) && i < |acts| && acts[i].IssueKey?
    ensures Legal(cfg, s, acts[..i])
    ensures var id, s' := Exec(cfg, s, acts[..i]).tables.nextId, Exec(cfg, s, acts);
            && id in s'.tables.keys && s'.tables.keys[id].hash == acts[i].hash
            && (s'.tables.keys[id].revokedAt == None <==> !Revoked(acts[i + 1..], id))
            && (forall at :: s'.clock <= at ==>
                  && (Enabled(cfg, s', VerifyKey(id, at)) <==> !Revoked(acts[i + 1..], id))
                  && (Enabled(cfg, s', RevokeKey(id, at)) <==> !Revoked(acts[i + 1..], id)))
  {
    assert acts == acts[..i] + acts[i..] && acts[i..][1..] == acts[i + 1..];
    RunConcat(cfg, s, acts[..i], acts[i..]);
    var s0 := Exec(cfg, s, acts[..i]);
    RunKeepsKeys(cfg, s, acts[..i]);
    StepKeepsKeys(cfg, s0, acts[i]);
    RowLife(cfg, Apply(cfg, s0, acts[i]), acts[i + 1..], s0.tables.nextId);
  }

  // Some step verifies the key.
  predicate Verified(acts: seq<Action>, id: int) {
    exists j :: 0 <= j < |acts| && acts[j] == VerifyKey(id, acts[j].at)
  }

  /** The keys that may bind devices are exactly those that some Verify has accepted. */
  lemma {:induction false} SessionsExact(cfg: Settings, s: System, acts: seq<Action>, id: int)
    requires Legal(cfg, s, acts)
    ensures id in Exec(cfg, s, acts).sessions <==> id in s.sessions || Verified(acts, id)
    decreases |acts|
  {
    if acts != [] {
      SessionsExact(cfg, Apply(cfg, s, acts[0]), acts[1..], id);
      if Verified(acts, id) {
        var j :| 0 <= j < |acts| && acts[j] == VerifyKey(id, acts[j].at);
        assert j > 0 ==> acts[1..][j - 1] == acts[j];
      }
      if Verified(acts[1..], id) {
        var j :| 0 <= j < |acts[1..]| && acts[1..][j] == VerifyKey(id, acts[1..][j].at);
        assert acts[j + 1] == acts[1..][j];
      }
    }
  }

  // ---------------------------------------------------------------------------------------
  // The sweep gate

  // Sweeps were claimed an hour apart.
  predicate GateInv(s: System) {
    && s.lastPrune <= s.clock
    && (forall i :: 0 <= i < |s.sweeps| ==> s.sweeps[i] <= s.lastPrune)
    && (forall i, j :: 0 <= i < j < |s.sweeps| ==> s.sweeps[i] + PRUNE_INTERVAL <= s.sweeps[j])
  }

  // A cutoff lies at least the retention in the past, and none exists when pruning is off.
  predicate CutoffInv(cfg: Settings, s: System) {
    && (s.claimed > 0 ==> cfg.retention > 0.0)
    && (forall c :: c in s.cutoffs ==> cfg.retention > 0.0 && c <= Unix(s.clock - cfg.retention))
  }

  predicate SweepInv(cfg: Settings, s: System) {
    GateInv(s) && CutoffInv(cfg, s)
  }

  lemma {:induction false} UnixMonotone(t1: real, t2: real)
    requires t1 <= t2
    ensures Unix(t1) <= Unix(t2)
  {
  }

  lemma {:induction false} StepKeepsGate(cfg: Settings, s: System, a: Action)
    requires GateInv(s) && Enabled(cfg, s, a)
    ensures GateInv(Apply(cfg, s, a))
  {
  }

  lemma {:induction false} StepKeepsCutoffs(cfg: Settings, s: System, a: Action)
    requires CutoffInv(cfg, s) && Enabled(cfg, s, a)
    ensures CutoffInv(cfg, Apply(cfg, s, a))
  {
    UnixMonotone(s.clock - cfg.retention, a.at - cfg.retention);
    assert Apply(cfg, s, a).claimed > 0 ==> cfg.retention > 0.0;
    forall c | c in Apply(cfg, s, a).cutoffs
      ensures cfg.retention > 0.0 && c <= Unix(a.at - cfg.retention)
    {
      assert c in s.cutoffs || (a.TakeCutoff? && c == Unix(a.at - cfg.retention));
    }
  }

  // ---------------------------------------------------------------------------------------
  // Ownership

  // More than the retention lies between second `at` and second `now`.
  predicate Lapsed(cfg: Settings, at: int, now: int) {
    cfg.retention > 0.0 && now as real > at as real + cfg.retention
  }

  // What passing the check at second `at` is worth later: the device is still that key's
  // and was not seen earlier than `at`, or the retention has run out.
  predicate StillHeld(cfg: Settings, s: System, key: int, d: Device, at: int) {
    || (d in s.tables.tokens && s.tables.tokens[d].owner == key && at <= s.tables.tokens[d].lastSeen)
    || Lapsed(cfg, at, Unix(s.clock))
  }

  lemma {:induction false} StepKeepsHeld(cfg: Settings, s: System, a: Action, key: int, d: Device, at: int)
    requires SweepInv(cfg, s) && Enabled(cfg, s, a) && at <= Unix(s.clock)
    requires StillHeld(cfg, s, key, d, at)
    ensures StillHeld(cfg, Apply(cfg, s, a), key, d, at)
  {
    UnixMonotone(s.clock, a.at);
    if a.RunDelete? && d in Stale(s.tables, a.cutoff) {
      CutoffMeansLapsed(cfg, s.clock, s.tables.tokens[d].lastSeen, a.cutoff);
    }
  }

  // A row that a sweep finds stale was last seen more than the retention ago.
  lemma {:induction false} CutoffMeansLapsed(cfg: Settings, clock: real, lastSeen: int, cutoff: int)
    requires cfg.retention > 0.0 && lastSeen < cutoff <= Unix(clock - cfg.retention)
    ensures Lapsed(cfg, lastSeen, Unix(clock))
  {
    assert (lastSeen + 1) as real + cfg.retention <= clock;
    assert Unix(clock) as real > clock - 1.0;
  }

  // While one key's claim on a device stands, another key passes only once it has lapsed.
  lemma {:induction false} PassMeansLapsed(cfg: Settings, s: System, holder: int, key: int, d: Device, at: int,
                                           now: real)
    requires StillHeld(cfg, s, holder, d, at) && key != holder && Passes(s, key, d) && s.clock <= now
    ensures Lapsed(cfg, at, Unix(now))
  {
    UnixMonotone(s.clock, now);
  }

  predicate LogInv(cfg: Settings, s: System) {
    && (forall d :: d in s.tables.tokens ==> s.tables.tokens[d].lastSeen <= Unix(s.clock))
    && (forall i :: 0 <= i < |s.log| ==> s.log[i].at <= Unix(s.clock))
    && (forall i :: 0 <= i < |s.log| && s.log[i].Passed? ==>
          StillHeld(cfg, s, s.log[i].key, s.log[i].device, s.log[i].at))
    && Exclusive(cfg, s.log)
    && SafeRemovals(cfg, s.log)
  }

  // Two different keys never pass the check for one device within the retention.
  predicate Exclusive(cfg: Settings, log: seq<Entry>) {
    forall i, j :: 0 <= i < j < |log| && log[i].Passed? && log[j].Passed?
                   && log[i].device == log[j].device && log[i].key != log[j].key ==>
      Lapsed(cfg, log[i].at, log[j].at)
  }

  // A sweep never removes a device within the retention of any key's pass for it.
  predicate SafeRemovals(cfg: Settings, log: seq<Entry>) {
    forall i, j :: 0 <= i < j < |log| && log[i].Passed? && log[j].Removed? && log[i].device in log[j].devices ==>
      Lapsed(cfg, log[i].at, log[j].at)
  }

  lemma {:induction false} EntriesApart(cfg: Settings, log: seq<Entry>, i: nat, j: nat)
    requires Exclusive(cfg, log) && i < |log| && j < |log| && log[i].Passed? && log[j].Passed?
    requires log[i].device == log[j].device && log[i].key != log[j].key
    ensures Lapsed(cfg, log[i].at, log[j].at) || Lapsed(cfg, log[j].at, log[i].at)
  {
  }

  lemma {:induction false} StepKeepsLog(cfg: Settings, s: System, a: Action)
    requires SweepInv(cfg, s) && LogInv(cfg, s) && Enabled(cfg, s, a)
    ensures LogInv(cfg, Apply(cfg, s, a))
  {
    var s' := Apply(cfg, s, a);
    assert Unix(s.clock) <= Unix(s'.clock);
    forall i | 0 <= i < |s.log| && s.log[i].Passed?
      ensures StillHeld(cfg, s', s.log[i].key, s.log[i].device, s.log[i].at)
    {
      StepKeepsHeld(cfg, s, a, s.log[i].key, s.log[i].device, s.log[i].at);
    }
    if a.RunDelete? {
      forall i | 0 <= i < |s.log| && s.log[i].Passed? && s.log[i].device in Stale(s.tables, a.cutoff)
        ensures Lapsed(cfg, s.log[i].at, Unix(s'.clock))
      {
        assert StillHeld(cfg, s', s.log[i].key, s.log[i].device, s.log[i].at);
      }
    }
    if a.BindCommit? && Passes(s, a.key, a.device) {
      forall i | 0 <= i < |s.log| && s.log[i].Passed? && s.log[i].device == a.device && s.log[i].key != a.key
        ensures Lapsed(cfg, s.log[i].at, Unix(s'.clock))
      {
        PassMeansLapsed(cfg, s, s.log[i].key, a.key, a.device, s.log[i].at, a.at);
      }
    }
  }

  // ---------------------------------------------------------------------------------------
  // All runs

  predicate Inv(cfg: Settings, s: System) {
    KeysInv(cfg, s) && SweepInv(cfg, s) && LogInv(cfg, s)
  }

  // Tables as a previous run of the relay may have left them.
  predicate GoodTables(cfg: Settings, t: Tables, now: real) {
    KeysInv(cfg, Opened(t, now)) && forall d :: d in t.tokens ==> t.tokens[d].lastSeen <= Unix(now)
  }

  lemma {:induction false} StepKeepsInv(cfg: Settings, s: System, a: Action)
    requires Inv(cfg, s) && Enabled(cfg, s, a)
    ensures Inv(cfg, Apply(cfg, s, a))
  {
    StepKeepsKeys(cfg, s, a);
    StepKeepsGate(cfg, s, a);
    StepKeepsCutoffs(cfg, s, a);
    StepKeepsLog(cfg, s, a);
  }

  lemma {:induction false} RunKeepsInv(cfg: Settings, s: System, acts: seq<Action>)
    requires Inv(cfg, s) && Legal(cfg, s, acts)
    ensures Inv(cfg, Exec(cfg, s, acts))
    decreases |acts|
  {
    if acts != [] {
      StepKeepsInv(cfg, s, acts[0]);
      RunKeepsInv(cfg, Apply(cfg, s, acts[0]), acts[1..]);
    }
  }

  /** Whatever binds, refused binds, sweeps and failures interleave: two keys never pass the
      ownership check for one device within the retention (and never at all when pruning is
      off), no sweep removes a device within the retention of a pass for it, sweeps start an
      hour apart, and the keys table respects its ceiling and keeps every owner. */
  lemma {:induction false} StoreSafety(cfg: Settings, tables: Tables, start: real, acts: seq<Action>)
    requires GoodTables(cfg, tables, start) && Legal(cfg, Opened(tables, start), acts)
    ensures var s := Exec(cfg, Opened(tables, start), acts);
            && Exclusive(cfg, s.log)
            && SafeRemovals(cfg, s.log)
            && (forall i, j :: 0 <= i < j < |s.sweeps| ==> s.sweeps[j] - s.sweeps[i] >= 3600.0)
            && KeysInv(cfg, s)
  {
    RunKeepsInv(cfg, Opened(tables, start), acts);
  }

  lemma {:induction false} HeldThroughRun(cfg: Settings, s: System, acts: seq<Action>, key: int, d: Device, at: int)
    requires Inv(cfg, s) && Legal(cfg, s, acts) && at <= Unix(s.clock) && StillHeld(cfg, s, key, d, at)
    ensures StillHeld(cfg, Exec(cfg, s, acts), key, d, at)
    decreases |acts|
  {
    if acts != [] {
      StepKeepsHeld(cfg, s, acts[0], key, d, at);
      StepKeepsInv(cfg, s, acts[0]);
      HeldThroughRun(cfg, Apply(cfg, s, acts[0]), acts[1..], key, d, at);
    }
  }

  /** Opening a store that predates the last-seen column costs no binding its protection: no
      other key passes for a device bound before the upgrade until a whole retention after
      the store was opened. */
  lemma {:induction false} UpgradeKeepsBindings(cfg: Settings, old': Tables, now: real, acts: seq<Action>,
                                                d: Device, key: int, at: real)
    requires GoodTables(cfg, old', now) && d in old'.tokens && old'.tokens[d].lastSeen == 0
    requires var s := Opened(old'.(tokens := Backfilled(old'.tokens, now)), now);
             && Legal(cfg, s, acts)
             && Enabled(cfg, Exec(cfg, s, acts), BindCommit(key, d, at))
             && Passes(Exec(cfg, s, acts), key, d)
             && key != old'.tokens[d].owner
    ensures Lapsed(cfg, Unix(now), Unix(at))
  {
    var s := Opened(old'.(tokens := Backfilled(old'.tokens, now)), now);
    HeldThroughRun(cfg, s, acts, old'.tokens[d].owner, d, Unix(now));
    PassMeansLapsed(cfg, Exec(cfg, s, acts), old'.tokens[d].owner, key, d, Unix(now), at);
  }
}
