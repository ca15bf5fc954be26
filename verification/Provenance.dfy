/**
 Whose a device is, told from history alone: in every run the owner is the first key to
 pass for the device since it was last removed, and its last-seen second is that owner's
 latest pass.  Refused attempts leave no entry, so they change neither.
 */
module Provenance {
  import opened Push
  import opened KeyStore
  import opened StoreRuns

  datatype Claim = Claim(owner: int, lastSeen: int)

  predicate PassAt(log: seq<Entry>, i: int, d: Device) {
    0 <= i < |log| && log[i].Passed? && log[i].device == d
  }

  predicate GoneAt(log: seq<Entry>, i: int, d: Device) {
    0 <= i < |log| && log[i].Removed? && d in log[i].devices
  }

  // Every pass for d, and d's binding from before the run, has been swept away since.
  predicate Unclaimed(initial: map<Device, Binding>, log: seq<Entry>, n: int, d: Device) {
    && (forall j :: 0 <= j < n && PassAt(log, j, d) ==> exists g :: j < g < n && GoneAt(log, g, d))
    && (d in initial ==> exists g :: 0 <= g < n && GoneAt(log, g, d))
  }

  // Entry i is the first pass for d since its last removal.
  ghost predicate FirstSinceRemoval(initial: map<Device, Binding>, log: seq<Entry>, d: Device, i: int) {
    PassAt(log, i, d) && Unclaimed(initial, log, i, d) && forall g :: GoneAt(log, g, d) ==> g < i
  }

  ghost predicate LatestPass(log: seq<Entry>, d: Device, l: int) {
    PassAt(log, l, d) && forall j :: PassAt(log, j, d) ==> j <= l
  }

  // What the history says about d.
  ghost predicate Story(initial: map<Device, Binding>, log: seq<Entry>, d: Device, c: Claim) {
    && ((exists i :: FirstSinceRemoval(initial, log, d, i) && log[i].key == c.owner)
        || (d in initial && initial[d].owner == c.owner && forall g :: !GoneAt(log, g, d)))
    && ((exists l :: LatestPass(log, d, l) && log[l].key == c.owner && log[l].at == c.lastSeen)
        || (d in initial && initial[d].lastSeen == c.lastSeen && forall j :: !PassAt(log, j, d)))
  }

  ghost predicate Explained(initial: map<Device, Binding>, s: System) {
    forall d: Device ::
      if d in s.tables.tokens
      then Story(initial, s.log, d, Claim(s.tables.tokens[d].owner, s.tables.tokens[d].lastSeen))
      else Unclaimed(initial, s.log, |s.log|, d)
  }

  // An entry that is not about d changes nothing d's history says.
  lemma {:induction false} UnrelatedEntry(initial: map<Device, Binding>, log: seq<Entry>, e: Entry, d: Device)
    requires !PassAt(log + [e], |log|, d) && !GoneAt(log + [e], |log|, d)
    ensures forall c :: Story(initial, log, d, c) ==> Story(initial, log + [e], d, c)
    ensures Unclaimed(initial, log, |log|, d) ==> Unclaimed(initial, log + [e], |log| + 1, d)
  {
    var log' := log + [e];
    SameBelow(initial, log, e, d);
    forall c | Story(initial, log, d, c)
      ensures Story(initial, log', d, c)
    {
      if i :| FirstSinceRemoval(initial, log, d, i) && log[i].key == c.owner {
        assert FirstSinceRemoval(initial, log', d, i);
      }
      if l :| LatestPass(log, d, l) && log[l].key == c.owner && log[l].at == c.lastSeen {
        assert LatestPass(log', d, l);
      }
    }
  }

  // Appending an entry does not change what held of the entries before it.
  lemma {:induction false} SameBelow(initial: map<Device, Binding>, log: seq<Entry>, e: Entry, d: Device)
    ensures forall i :: i < |log| ==> (PassAt(log, i, d) <==> PassAt(log + [e], i, d))
    ensures forall i :: i < |log| ==> (GoneAt(log, i, d) <==> GoneAt(log + [e], i, d))
    ensures forall n :: n <= |log| ==> (Unclaimed(initial, log, n, d) <==> Unclaimed(initial, log + [e], n, d))
  {
    var log' := log + [e];
    forall i | i < |log|
      ensures PassAt(log, i, d) <==> PassAt(log', i, d)
      ensures GoneAt(log, i, d) <==> GoneAt(log', i, d)
    {
    }
    forall n | n <= |log|
      ensures Unclaimed(initial, log, n, d) <==> Unclaimed(initial, log', n, d)
    {
      assert Unclaimed(initial, log, n, d) ==> Unclaimed(initial, log', n, d);
      assert Unclaimed(initial, log', n, d) ==> Unclaimed(initial, log, n, d);
    }
  }

  // A pass for an unclaimed device starts a new story.
  lemma {:induction false} PassStartsStory(initial: map<Device, Binding>, log: seq<Entry>, key: int, d: Device, at: int)
    requires Unclaimed(initial, log, |log|, d)
    ensures Story(initial, log + [Passed(key, d, at)], d, Claim(key, at))
  {
    var e := Passed(key, d, at);
    SameBelow(initial, log, e, d);
    assert FirstSinceRemoval(initial, log + [e], d, |log|);
    assert LatestPass(log + [e], d, |log|);
  }

  // A pass by the owner moves the last-seen second and nothing else.
  lemma {:induction false} PassContinuesStory(initial: map<Device, Binding>, log: seq<Entry>, c: Claim,
                                              d: Device, at: int)
    requires Story(initial, log, d, c)
    ensures Story(initial, log + [Passed(c.owner, d, at)], d, Claim(c.owner, at))
  {
    var e := Passed(c.owner, d, at);
    SameBelow(initial, log, e, d);
    assert LatestPass(log + [e], d, |log|);
    if i :| FirstSinceRemoval(initial, log, d, i) && log[i].key == c.owner {
      assert FirstSinceRemoval(initial, log + [e], d, i);
    }
  }

  lemma {:induction false} RemovalEndsStory(initial: map<Device, Binding>, log: seq<Entry>, e: Entry, d: Device)
    requires e.Removed? && d in e.devices
    ensures Unclaimed(initial, log + [e], |log| + 1, d)
  {
    assert GoneAt(log + [e], |log|, d);
  }

  lemma {:induction false} StepKeepsExplained(cfg: Settings, initial: map<Device, Binding>, s: System, a: Action)
    requires Explained(initial, s) && Enabled(cfg, s, a)
    ensures Explained(initial, Apply(cfg, s, a))
  {
    var s' := Apply(cfg, s, a);
    if s'.log != s.log {
      var e := s'.log[|s.log|];
      assert s'.log == s.log + [e];
      forall d: Device
        ensures if d in s'.tables.tokens
                then Story(initial, s'.log, d, Claim(s'.tables.tokens[d].owner, s'.tables.tokens[d].lastSeen))
                else Unclaimed(initial, s'.log, |s'.log|, d)
      {
        if PassAt(s'.log, |s.log|, d) {
          if d in s.tables.tokens {
            PassContinuesStory(initial, s.log, Claim(e.key, s.tables.tokens[d].lastSeen), d, e.at);
          } else {
            PassStartsStory(initial, s.log, e.key, d, e.at);
          }
        } else if GoneAt(s'.log, |s.log|, d) {
          RemovalEndsStory(initial, s.log, e, d);
        } else {
          UnrelatedEntry(initial, s.log, e, d);
        }
      }
    }
  }

  /** In every run each binding is explained by the history: its owner is the first key to
      pass since the last removal (or the owner it had when the store was opened, if it was
      never removed), and its last-seen second is that owner's latest pass. */
  lemma {:induction false} BindingsExplained(cfg: Settings, initial: map<Device, Binding>, s: System, acts: seq<Action>)
    requires Explained(initial, s) && Legal(cfg, s, acts)
    ensures Explained(initial, Exec(cfg, s, acts))
    decreases |acts|
  {
    if acts != [] {
      StepKeepsExplained(cfg, initial, s, acts[0]);
      BindingsExplained(cfg, initial, Apply(cfg, s, acts[0]), acts[1..]);
    }
  }

  lemma {:induction false} OpenedExplained(tables: Tables, now: real)
    ensures Explained(tables.tokens, Opened(tables, now))
  {
  }

  // ---------------------------------------------------------------------------------------
  // What the history says decides every bind and every sweep

  // The history never says two things about a device.
  lemma {:induction false} OneStory(initial: map<Device, Binding>, log: seq<Entry>, d: Device, c: Claim)
    requires Story(initial, log, d, c)
    ensures !Unclaimed(initial, log, |log|, d)
    ensures forall c' :: Story(initial, log, d, c') ==> c' == c
  {
  }

  // The step logged key's pass for d at second `at` and left d bound to key and seen then,
  // and every other binding as it was.
  predicate Bound(s: System, s': System, key: int, d: Device, at: int) {
    && s'.log == s.log + [Passed(key, d, at)]
    && d in s'.tables.tokens && s'.tables.tokens[d].owner == key && s'.tables.tokens[d].lastSeen == at
    && (forall e :: e in s'.tables.tokens && e != d ==>
          e in s.tables.tokens && s'.tables.tokens[e] == s.tables.tokens[e])
    && (forall e :: e in s.tables.tokens ==> e in s'.tables.tokens)
  }

  lemma {:induction false} RunExplained(cfg: Settings, tables: Tables, start: real, acts: seq<Action>)
    requires Legal(cfg, Opened(tables, start), acts)
    ensures Explained(tables.tokens, Exec(cfg, Opened(tables, start), acts))
  {
    OpenedExplained(tables, start);
    BindingsExplained(cfg, tables.tokens, Opened(tables, start), acts);
  }

  /** In every run the history decides each bind.  A key that asks for a device the history
      leaves unclaimed, or says is its own, passes and holds the device as seen that second;
      a key that asks for another's is refused and changes nothing.  One of these always
      applies. */
  lemma {:induction false} HistoryDecidesBind(cfg: Settings, tables: Tables, start: real, acts: seq<Action>,
                                              key: int, d: Device, at: real)
    requires Legal(cfg, Opened(tables, start), acts)
    requires Enabled(cfg, Exec(cfg, Opened(tables, start), acts), BindCommit(key, d, at))
    ensures var s := Exec(cfg, Opened(tables, start), acts);
            var s' := Apply(cfg, s, BindCommit(key, d, at));
            && (Unclaimed(tables.tokens, s.log, |s.log|, d) ==> Bound(s, s', key, d, at.Floor))
            && (forall c :: Story(tables.tokens, s.log, d, c) ==>
                  if c.owner == key then Bound(s, s', key, d, at.Floor)
                  else s'.log == s.log && s'.tables == s.tables)
            && (Unclaimed(tables.tokens, s.log, |s.log|, d) || exists c :: Story(tables.tokens, s.log, d, c))
  {
    var s := Exec(cfg, Opened(tables, start), acts);
    RunExplained(cfg, tables, start, acts);
    if d in s.tables.tokens {
      OneStory(tables.tokens, s.log, d, Claim(s.tables.tokens[d].owner, s.tables.tokens[d].lastSeen));
    } else if c :| Story(tables.tokens, s.log, d, c) {
      OneStory(tables.tokens, s.log, d, c);
    }
  }

  /** In every run a delete removes exactly the devices whose owner's latest pass, as the
      history has it, lies before the cutoff. */
  lemma {:induction false} HistoryDecidesDelete(cfg: Settings, tables: Tables, start: real, acts: seq<Action>,
                                                cutoff: int, at: real)
    requires Legal(cfg, Opened(tables, start), acts)
    requires Enabled(cfg, Exec(cfg, Opened(tables, start), acts), RunDelete(cutoff, at))
    ensures var s := Exec(cfg, Opened(tables, start), acts);
            var s' := Apply(cfg, s, RunDelete(cutoff, at));
            && |s'.log| == |s.log| + 1 && s'.log[|s.log|].Removed?
            && (forall d :: d in s'.log[|s.log|].devices <==>
                  exists c :: Story(tables.tokens, s.log, d, c) && c.lastSeen < cutoff)
            && (forall d :: d in s'.tables.tokens <==> d in s.tables.tokens && d !in s'.log[|s.log|].devices)
  {
    var s := Exec(cfg, Opened(tables, start), acts);
    RunExplained(cfg, tables, start, acts);
    forall d
      ensures d in Stale(s.tables, cutoff) <==> exists c :: Story(tables.tokens, s.log, d, c) && c.lastSeen < cutoff
    {
      if d in s.tables.tokens {
        OneStory(tables.tokens, s.log, d, Claim(s.tables.tokens[d].owner, s.tables.tokens[d].lastSeen));
      } else if c :| Story(tables.tokens, s.log, d, c) {
        OneStory(tables.tokens, s.log, d, c);
      }
    }
  }
}
