/**
 The key store of internal/keys: issued registration keys, and the bindings that give each
 device token to the key that first sent to it.  Times are in seconds; a table stores whole
 Unix seconds.  A secret is known to the store only by its hash.

 Store is the mutable object.  Its methods are proved against the functions on Tables and
 Snapshot below.
 */
module KeyStore {
  import opened Push

  datatype Device = Device(platform: Platform, token: string)

  datatype KeyRow = KeyRow(hash: string, tag: string, createdAt: int, lastUsedAt: Option<int>, revokedAt: Option<int>)

  datatype Binding = Binding(owner: int, createdAt: int, lastSeen: int)

  datatype Tables = Tables(keys: map<int, KeyRow>, nextId: int, tokens: map<Device, Binding>)

  datatype Snapshot = Snapshot(tables: Tables, lastPrune: real)

  const PRUNE_INTERVAL: real := 3600.0

  function Unix(t: real): int {
    t.Floor
  }

  predicate HashTaken(t: Tables, hash: string) {
    exists id :: id in t.keys && t.keys[id].hash == hash
  }

  // Revoked keys still count: revoking does not reopen a slot.
  predicate AtCeiling(t: Tables, max: int) {
    max > 0 && |t.keys| >= max
  }

  function AfterIssue(t: Tables, hash: string, tag: string, now: real): Tables {
    t.(keys := t.keys[t.nextId := KeyRow(hash, tag, Unix(now), None, None)], nextId := t.nextId + 1)
  }

  predicate Usable(t: Tables, id: int) {
    id in t.keys && t.keys[id].revokedAt.None?
  }

  function AfterRevoke(t: Tables, id: int, now: real): Tables
    requires id in t.keys
  {
    t.(keys := t.keys[id := t.keys[id].(revokedAt := Some(Unix(now)))])
  }

  function AfterStamp(t: Tables, id: int, now: real): Tables
    requires id in t.keys
  {
    t.(keys := t.keys[id := t.keys[id].(lastUsedAt := Some(Unix(now)))])
  }

  // The key that owns a device once `key` has asked for it.
  function OwnerAfterBind(t: Tables, key: int, d: Device): int {
    if d in t.tokens then t.tokens[d].owner else key
  }

  function AfterBind(t: Tables, key: int, d: Device, now: real): Tables {
    if d !in t.tokens then
      t.(tokens := t.tokens[d := Binding(key, Unix(now), Unix(now))])
    else if t.tokens[d].owner == key then
      t.(tokens := t.tokens[d := t.tokens[d].(lastSeen := Unix(now))])
    else t
  }

  function Stale(t: Tables, cutoff: int): set<Device> {
    set d | d in t.tokens && t.tokens[d].lastSeen < cutoff
  }

  function AfterPrune(t: Tables, cutoff: int): Tables {
    t.(tokens := t.tokens - Stale(t, cutoff))
  }

  predicate Due(s: Snapshot, retention: real, checkAt: real) {
    retention > 0.0 && checkAt - s.lastPrune >= PRUNE_INTERVAL
  }

  // The four clock readings of one BindToken call, in the order the code takes them.
  datatype Call = Call(key: int, device: Device, now: real, checkAt: real, claimAt: real, cutoffAt: real)

  function AfterBindToken(s: Snapshot, retention: real, call: Call): Snapshot {
    var bound := s.(tables := AfterBind(s.tables, call.key, call.device, call.now));
    if Due(bound, retention, call.checkAt) then
      Snapshot(AfterPrune(bound.tables, Unix(call.cutoffAt - retention)), call.claimAt)
    else bound
  }

  // Rows that predate the last-seen column are treated as seen when the column is added.
  function Backfilled(tokens: map<Device, Binding>, now: real): map<Device, Binding> {
    map d | d in tokens :: if tokens[d].lastSeen == 0 then tokens[d].(lastSeen := Unix(now)) else tokens[d]
  }

  datatype IssueOutcome = Issued(id: int) | CeilingReached | InsertFailed

  class Store {
    var keys: map<int, KeyRow>
    var nextId: int
    var tokens: map<Device, Binding>
    var lastPrune: real

    ghost function Contents(): Snapshot
      reads this
    {
      Snapshot(Tables(keys, nextId, tokens), lastPrune)
    }

    // `columnAdded`: the file predates the last-seen column.
    constructor Open(existing: Tables, columnAdded: bool, now: real)
      ensures Contents() == Snapshot(
                existing.(tokens := if columnAdded then Backfilled(existing.tokens, now) else existing.tokens), now)
      ensures keys == existing.keys && nextId == existing.nextId && tokens.Keys == existing.tokens.Keys
      ensures forall d :: d in tokens ==>
                var row := existing.tokens[d];
                tokens[d] == if columnAdded && row.lastSeen == 0 then row.(lastSeen := now.Floor) else row
    {
      keys, nextId := existing.keys, existing.nextId;
      tokens := if columnAdded then Backfilled(existing.tokens, now) else existing.tokens;
      lastPrune := now;
    }

    method Issue(hash: string, tag: string, max: int, now: real) returns (r: IssueOutcome)
      modifies this`keys, this`nextId
      ensures r.CeilingReached? <==> max > 0 && |old(keys)| >= max
      ensures r.InsertFailed? ==> exists id :: id in old(keys) && old(keys)[id].hash == hash
      ensures r.Issued? ==> forall id :: id in old(keys) ==> old(keys)[id].hash != hash
      ensures r.Issued? ==> r.id == old(nextId) && nextId == r.id + 1
      ensures r.Issued? ==> keys == old(keys)[r.id := KeyRow(hash, tag, now.Floor, None, None)]
      ensures r.Issued? ==> Contents().tables == AfterIssue(old(Contents()).tables, hash, tag, now)
      ensures r.Issued? <==> !AtCeiling(old(Contents()).tables, max) && !HashTaken(old(Contents()).tables, hash)
      ensures !r.Issued? ==> Contents() == old(Contents())
    {
      if max > 0 && |keys| >= max {
        return CeilingReached;
      }
      if id :| id in keys && keys[id].hash == hash {
        return InsertFailed;
      }
      r := Issued(nextId);
      keys := keys[nextId := KeyRow(hash, tag, now.Floor, None, None)];
      nextId := nextId + 1;
    }

    // `stamped`: the second statement, the last-used update, succeeded.
    method Verify(hash: string, now: real, stamped: bool) returns (r: Option<int>)
      requires forall i, j :: i in keys && j in keys && keys[i].hash == keys[j].hash ==> i == j
      modifies this`keys
      ensures r.Some? ==> r.value in old(keys) && old(keys)[r.value].hash == hash && old(keys)[r.value].revokedAt.None?
      ensures r.None? ==> forall id :: id in old(keys) && old(keys)[id].hash == hash ==> old(keys)[id].revokedAt.Some?
      ensures keys == if r.Some? && stamped
                      then old(keys)[r.value := old(keys)[r.value].(lastUsedAt := Some(now.Floor))]
                      else old(keys)
      ensures Contents().tables ==
              if r.Some? && stamped then AfterStamp(old(Contents()).tables, r.value, now) else old(Contents()).tables
    {
      if id :| id in keys && keys[id].hash == hash {
        if keys[id].revokedAt.Some? {
          return None;
        }
        if stamped {
          keys := keys[id := keys[id].(lastUsedAt := Some(now.Floor))];
        }
        return Some(id);
      }
      return None;
    }

    method Revoke(id: int, now: real) returns (found: bool)
      modifies this`keys
      ensures found <==> id in old(keys) && old(keys)[id].revokedAt.None?
      ensures keys == if found then old(keys)[id := old(keys)[id].(revokedAt := Some(now.Floor))] else old(keys)
      ensures Contents().tables ==
              if found then AfterRevoke(old(Contents()).tables, id, now) else old(Contents()).tables
    {
      found := id in keys && keys[id].revokedAt.None?;
      if found {
        keys := keys[id := keys[id].(revokedAt := Some(now.Floor))];
      }
    }

    method BindToken(call: Call, retention: real) returns (owner: int)
      modifies this`tokens, this`lastPrune
      ensures call.device !in old(tokens) ==> owner == call.key
      ensures call.device in old(tokens) ==> owner == old(tokens)[call.device].owner
      ensures owner == OwnerAfterBind(old(Contents()).tables, call.key, call.device)
      ensures Contents() == AfterBindToken(old(Contents()), retention, call)
      // Without a sweep, a free device is bound, the owner's own is refreshed, and that is all.
      ensures retention <= 0.0 || call.checkAt - old(lastPrune) < 3600.0 ==>
                tokens == if call.device !in old(tokens) then
                            old(tokens)[call.device := Binding(call.key, call.now.Floor, call.now.Floor)]
                          else if old(tokens)[call.device].owner == call.key then
                            old(tokens)[call.device := old(tokens)[call.device].(lastSeen := call.now.Floor)]
                          else old(tokens)
    {
      if call.device !in tokens {
        tokens := tokens[call.device := Binding(call.key, call.now.Floor, call.now.Floor)];
        owner := call.key;
      } else {
        owner := tokens[call.device].owner;
        if owner == call.key {
          tokens := tokens[call.device := tokens[call.device].(lastSeen := call.now.Floor)];
        }
      }
      MaybePruneStaleTokens(retention, call.checkAt, call.claimAt, call.cutoffAt);
    }

    method MaybePruneStaleTokens(retention: real, checkAt: real, claimAt: real, cutoffAt: real)
      modifies this`tokens, this`lastPrune
      ensures Contents() ==
              if Due(old(Contents()), retention, checkAt)
              then Snapshot(AfterPrune(old(Contents()).tables, Unix(cutoffAt - retention)), claimAt)
              else old(Contents())
      ensures var swept := retention > 0.0 && checkAt - old(lastPrune) >= 3600.0;
              && lastPrune == (if swept then claimAt else old(lastPrune))
              && (forall d :: d in tokens ==> d in old(tokens) && tokens[d] == old(tokens)[d])
              && (forall d :: d in old(tokens) ==>
                    (d in tokens <==> !swept || (cutoffAt - retention).Floor <= old(tokens)[d].lastSeen))
    {
      if retention <= 0.0 {
        return;
      }
      var due := checkAt - lastPrune >= PRUNE_INTERVAL;
      if due {
        lastPrune := claimAt;
      }
      if !due {
        return;
      }
      var cutoff := (cutoffAt - retention).Floor;
      tokens := tokens - (set d | d in tokens && tokens[d].lastSeen < cutoff);
    }
  }

  // ---------------------------------------------------------------------------------------
  // Calls that do not overlap: the table stays bounded by what is recent

  function AfterCalls(s: Snapshot, retention: real, calls: seq<Call>): Snapshot
    decreases |calls|
  {
    if calls == [] then s else AfterCalls(AfterBindToken(s, retention, calls[0]), retention, calls[1..])
  }

  // The clock never goes back within a call or from one call to the next.
  predicate InOrder(start: real, calls: seq<Call>)
    decreases |calls|
  {
    calls != [] ==>
      && start <= calls[0].now <= calls[0].checkAt <= calls[0].claimAt <= calls[0].cutoffAt
      && InOrder(calls[0].cutoffAt, calls[1..])
  }

  // Some call of the run swept the table.
  predicate SomeSweep(s: Snapshot, retention: real, calls: seq<Call>)
    decreases |calls|
  {
    calls != [] && (Due(s, retention, calls[0].checkAt)
                    || SomeSweep(AfterBindToken(s, retention, calls[0]), retention, calls[1..]))
  }

  ghost predicate NoneOlder(t: Tables, second: int) {
    forall d :: d in t.tokens ==> second <= t.tokens[d].lastSeen
  }

  lemma {:induction false} CallKeepsRecent(s: Snapshot, retention: real, call: Call)
    requires retention > 0.0 && s.lastPrune <= call.now <= call.checkAt <= call.claimAt <= call.cutoffAt
    requires Due(s, retention, call.checkAt) || NoneOlder(s.tables, Unix(s.lastPrune - retention))
    ensures var s' := AfterBindToken(s, retention, call);
            && s'.lastPrune <= call.cutoffAt
            && NoneOlder(s'.tables, Unix(s'.lastPrune - retention))
            && NoneOlder(s'.tables, Unix(call.checkAt - retention - PRUNE_INTERVAL))
  {
  }

  /** Once a sweep has run, every binding that any later call leaves behind was sent to by
      its owner within the retention plus one hour before that call's sweep check. */
  lemma {:induction false} SequentialCallsStayRecent(s: Snapshot, retention: real, calls: seq<Call>, start: real)
    requires retention > 0.0 && s.lastPrune <= start && InOrder(start, calls) && calls != []
    requires SomeSweep(s, retention, calls) || NoneOlder(s.tables, Unix(s.lastPrune - retention))
    ensures NoneOlder(AfterCalls(s, retention, calls).tables,
                      (calls[|calls| - 1].checkAt - retention - 3600.0).Floor)
    decreases |calls|
  {
    var s' := AfterBindToken(s, retention, calls[0]);
    if Due(s, retention, calls[0].checkAt) || NoneOlder(s.tables, Unix(s.lastPrune - retention)) {
      CallKeepsRecent(s, retention, calls[0]);
    }
    if |calls| > 1 {
      SequentialCallsStayRecent(s', retention, calls[1..], calls[0].cutoffAt);
    }
  }
}
