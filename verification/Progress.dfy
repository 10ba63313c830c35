/**
 The workload step does not block itself. Lowering and deleting its own sources keeps Step 1 accepting,
 and creation, the existence check and name recovery agree on the names they expect.
 */
module Progress {
  import opened FailureDomains
  import opened Names
  import opened Sums
  import opened MachineSets
  import opened Capacity

  /** Every mapped source failure domain exists and lies on the one source vCenter, as preflight validated. */
  ghost predicate SharedSource(cfg: Config, server: string) {
    forall m | 0 <= m < |cfg.mappings| ::
      var fd := FindByName(cfg.infraFDs, cfg.mappings[m].source);
      fd.Some? && fd.value.server == server
  }

  /** The full base name is not a numeric-suffix extension of its own truncation. */
  ghost predicate NoSuffixCut(cfg: Config) {
    forall m | 0 <= m < |cfg.mappings| ::
      var full := FullName(cfg.infraID, cfg.mappings[m].destination);
      !IsSuffixed(full, Truncate(full))
  }

  ghost predicate Ready(cfg: Config, server: string) {
    WellFormed(cfg) && Sourced(cfg, server) && server != "" && SharedSource(cfg, server)
  }

  lemma {:induction false} FindOnServer(fds: seq<FailureDomain>, name: string, server: string)
    requires FindByName(fds, name).Some? && FindByName(fds, name).value.server == server
    ensures FindByName(OnlyServer(fds, server), name) == FindByName(fds, name)
    decreases |fds|
  {
    if fds[0].name != name {
      FindOnServer(fds[1..], name, server);
      var rest := OnlyServer(fds[1..], server);
      assert fds[0].server == server ==> ([fds[0]] + rest)[1..] == rest;
    }
  }

  /** Step 1 and recovery look at the same sources. */
  lemma SourcesAgree(cfg: Config, sets: Cluster, server: string, m: nat)
    requires SharedSource(cfg, server) && m < |cfg.mappings|
    ensures FindByName(cfg.infraFDs, cfg.mappings[m].source).Some?
    ensures Sources(cfg, sets, FindByName(cfg.infraFDs, cfg.mappings[m].source).value) == MatchedSources(cfg, sets, server, m)
  {
    FindOnServer(cfg.infraFDs, cfg.mappings[m].source, server);
  }

  /** Step 1 on one mapping, with the shared source vCenter put in. */
  ghost predicate Passes(cfg: Config, sets: Cluster, recorded: seq<string>, server: string, m: nat)
    requires m < |cfg.mappings|
  {
    var base, sources := MappingBase(cfg, sets, recorded, m), MatchedSources(cfg, sets, server, m);
    && Destination(cfg, m).Some?
    && ((sources == [] && RecordedFamily(recorded, base) == [])
        || ExpectationMet(sets, base, sources, Destination(cfg, m).value.server, recorded))
  }

  lemma PassesIsStepOne(cfg: Config, sets: Cluster, recorded: seq<string>, server: string, m: nat)
    requires Ready(cfg, server) && m < |cfg.mappings|
    ensures MappingPasses(cfg, sets, recorded, m) <==> Passes(cfg, sets, recorded, server, m)
  {
    SourcesAgree(cfg, sets, server, m);
    NoElements(RecordedFamily(recorded, MappingBase(cfg, sets, recorded, m)));
  }

  /** Step 1 fails on one mapping, with the shared source vCenter put in. */
  ghost predicate Fails(cfg: Config, sets: Cluster, recorded: seq<string>, server: string, m: nat)
    requires m < |cfg.mappings|
  {
    var base, sources := MappingBase(cfg, sets, recorded, m), MatchedSources(cfg, sets, server, m);
    || Destination(cfg, m).None?
    || (!(sources == [] && RecordedFamily(recorded, base) == [])
        && ExpectationBroken(sets, base, sources, Destination(cfg, m).value.server, recorded))
  }

  lemma FailsIsStepOne(cfg: Config, sets: Cluster, recorded: seq<string>, server: string, m: nat)
    requires Ready(cfg, server) && m < |cfg.mappings|
    ensures MappingBroken(cfg, sets, recorded, m) <==> Fails(cfg, sets, recorded, server, m)
  {
    hide ExpectationBroken, MappingBase;
    SourcesAgree(cfg, sets, server, m);
    NoElements(RecordedFamily(recorded, MappingBase(cfg, sets, recorded, m)));
  }

  /** An accepted aggregate carries its annotation. */
  ghost predicate AggregateMarked(cfg: Config, sets: Cluster, recorded: seq<string>, server: string, m: nat)
    requires m < |cfg.mappings|
  {
    var base, sources := MappingBase(cfg, sets, recorded, m), MatchedSources(cfg, sets, server, m);
    (Destination(cfg, m).Some? && Classify(sets, base, sources, Destination(cfg, m).value.server, recorded) == Ok(Aggregate))
    ==> sets[base].aggregate
  }

  /** Step 1 has accepted: every mapping passes and every aggregate is marked. */
  ghost predicate Settled(cfg: Config, sets: Cluster, recorded: seq<string>, server: string) {
    forall m | 0 <= m < |cfg.mappings| ::
      Passes(cfg, sets, recorded, server, m) && AggregateMarked(cfg, sets, recorded, server, m)
  }

  lemma SettledAccepts(cfg: Config, sets: Cluster, recorded: seq<string>, server: string)
    requires Ready(cfg, server) && Settled(cfg, sets, recorded, server)
    ensures Accepts(cfg, sets, recorded)
  {
    forall m | 0 <= m < |cfg.mappings| ensures MappingPasses(cfg, sets, recorded, m) {
      PassesIsStepOne(cfg, sets, recorded, server, m);
    }
  }

  // ----- An interrupted scale-down -----

  /** b is a with some source MachineSets lowered to zero. */
  ghost predicate Lowered(server: string, a: Cluster, b: Cluster) {
    && a.Keys == b.Keys
    && forall n | n in a :: b[n] == a[n] || (OnServer(a, n, server) && b[n] == a[n].(replicas := Some(0)))
  }

  lemma LoweredSources(cfg: Config, server: string, a: Cluster, b: Cluster, m: nat)
    requires Lowered(server, a, b) && m < |cfg.mappings|
    ensures MatchedSources(cfg, a, server, m) == MatchedSources(cfg, b, server, m)
    ensures forall n :: At(Weights(b), n) <= At(Weights(a), n)
    ensures forall n | !OnServer(a, n, server) :: At(Weights(b), n) == At(Weights(a), n)
    ensures ListSum(Weights(b), MatchedSources(cfg, b, server, m)) <= ListSum(Weights(a), MatchedSources(cfg, a, server, m))
  {
    assert Matched(cfg, a, server, m) == Matched(cfg, b, server, m);
    ListSumSame(Weights(b), Weights(a), MatchedSources(cfg, a, server, m));
  }

  lemma LoweredClassify(server: string, a: Cluster, b: Cluster, base: string, sources: seq<string>, dest: string, recorded: seq<string>)
    requires Lowered(server, a, b) && dest != server
    requires ListSum(Weights(b), sources) <= ListSum(Weights(a), sources)
    requires Expected(a, base, sources, dest, recorded).Ok?
    requires Classify(a, base, sources, dest, recorded) == Ok(Aggregate) ==> a[base].aggregate
    ensures Classify(b, base, sources, dest, recorded) == Classify(a, base, sources, dest, recorded)
    ensures Classify(b, base, sources, dest, recorded) == Ok(Aggregate) ==> b[base].aggregate
  {
    assert forall i | 0 <= i < |sources| :: CopyName(base, i) in a <==> CopyName(base, i) in b;
  }

  lemma LoweredMapping(cfg: Config, server: string, a: Cluster, b: Cluster, recorded: seq<string>, m: nat)
    requires Ready(cfg, server) && m < |cfg.mappings| && Lowered(server, a, b)
    requires Passes(cfg, a, recorded, server, m) && AggregateMarked(cfg, a, recorded, server, m)
    ensures Passes(cfg, b, recorded, server, m) && AggregateMarked(cfg, b, recorded, server, m)
  {
    var base, sources := MappingBase(cfg, a, recorded, m), MatchedSources(cfg, a, server, m);
    var dest := Destination(cfg, m).value.server;
    assert IsDestination(cfg, dest);
    LoweredSources(cfg, server, a, b, m);
    assert MappingBase(cfg, b, recorded, m) == base;
    if sources == [] && RecordedFamily(recorded, base) == [] {
      EmptyMappingMarked(b, base, dest, recorded);
    } else {
      LoweredClassify(server, a, b, base, sources, dest, recorded);
      LoweredExpectation(server, a, b, base, sources, dest, recorded);
    }
  }

  /** Without sources an aggregate is one only by its annotation. */
  lemma EmptyMappingMarked(sets: Cluster, base: string, dest: string, recorded: seq<string>)
    ensures Classify(sets, base, [], dest, recorded) == Ok(Aggregate) ==> base in sets && sets[base].aggregate
  {
  }

  lemma LoweredExpectation(server: string, a: Cluster, b: Cluster, base: string, sources: seq<string>, dest: string, recorded: seq<string>)
    requires Lowered(server, a, b) && dest != server
    requires ExpectationMet(a, base, sources, dest, recorded)
    requires Classify(b, base, sources, dest, recorded) == Classify(a, base, sources, dest, recorded)
    requires forall n :: At(Weights(b), n) <= At(Weights(a), n)
    requires forall n | !OnServer(a, n, server) :: At(Weights(b), n) == At(Weights(a), n)
    ensures ExpectationMet(b, base, sources, dest, recorded)
  {
    var e := Expected(a, base, sources, dest, recorded).value;
    assert forall n | n in e.names :: OnServer(a, n, dest);
    if !e.aggregate {
      forall i | 0 <= i < |sources| ensures CopyProblem(b, base, sources, dest, i).None? {
        var name := CopyName(base, i);
        assert name in CopyNames(base, |sources|);
        assert CopyProblem(a, base, sources, dest, i).None?;
        assert At(Weights(b), name) == At(Weights(a), name);
        assert At(Weights(b), sources[i]) <= At(Weights(a), sources[i]);
      }
      forall i | 0 <= i < |sources| ensures IdentityAt(b, base, sources, i) {
        assert IdentityAt(a, base, sources, i);
        assert CopyName(base, i) in CopyNames(base, |sources|);
        assert At(Weights(b), sources[i]) <= At(Weights(a), sources[i]);
      }
    }
  }

  // ----- An interrupted deletion -----

  /** b is a with some source MachineSets deleted, none of the sources running anything. */
  ghost predicate Pruned(server: string, a: Cluster, b: Cluster) {
    && (forall n | n in ByVCenter(a, server) :: Desired(a[n]) == 0)
    && (forall n | n in b :: n in a && b[n] == a[n])
    && (forall n | n in a && n !in b :: OnServer(a, n, server))
  }

  lemma PrunedSources(cfg: Config, server: string, a: Cluster, b: Cluster, m: nat)
    requires Pruned(server, a, b) && m < |cfg.mappings|
    ensures |MatchedSources(cfg, b, server, m)| <= |MatchedSources(cfg, a, server, m)|
    ensures forall n | n in MatchedSources(cfg, b, server, m) :: At(Weights(b), n) == 0
    ensures ListSum(Weights(b), MatchedSources(cfg, b, server, m)) == 0
  {
    var old', new' := Matched(cfg, a, server, m), Matched(cfg, b, server, m);
    forall n | n in new' ensures n in old' && At(Weights(b), n) == 0 {
      assert OnServer(b, n, server);
      assert n in ByVCenter(a, server);
    }
    SubsetCard(new', old');
    forall n | n in MatchedSources(cfg, b, server, m) ensures At(Weights(b), n) == 0 {
      assert n in Elements(MatchedSources(cfg, b, server, m));
    }
    ListSumZero(Weights(b), MatchedSources(cfg, b, server, m));
  }

  /** The base changes only when a deleted source held the untruncated name, and then nothing is recorded for it. */
  lemma PrunedBase(cfg: Config, server: string, a: Cluster, b: Cluster, recorded: seq<string>, m: nat)
    requires Pruned(server, a, b) && m < |cfg.mappings|
    ensures
      var x, y := MappingBase(cfg, a, recorded, m), MappingBase(cfg, b, recorded, m);
      x == y || (OnServer(a, x, server) && RecordedFamily(recorded, y) == [])
  {
  }

  lemma BaseExpected(sets: Cluster, base: string, sources: seq<string>, dest: string, recorded: seq<string>)
    ensures ExpectationMet(sets, base, sources, dest, recorded) && sources != [] ==> OnServer(sets, base, dest)
  {
    assert CopyName(base, 0) == base;
    assert sources != [] ==> CopyName(base, 0) in CopyNames(base, |sources|);
  }

  lemma PrunedBaseGone(cfg: Config, server: string, a: Cluster, b: Cluster, recorded: seq<string>, m: nat)
    requires Ready(cfg, server) && m < |cfg.mappings| && Pruned(server, a, b)
    requires Passes(cfg, a, recorded, server, m)
    requires MappingBase(cfg, a, recorded, m) != MappingBase(cfg, b, recorded, m)
    ensures MatchedSources(cfg, b, server, m) == []
  {
    var x, s := MappingBase(cfg, a, recorded, m), MatchedSources(cfg, a, server, m);
    var dest := Destination(cfg, m).value.server;
    assert IsDestination(cfg, dest);
    PrunedBase(cfg, server, a, b, recorded, m);
    PrunedSources(cfg, server, a, b, m);
    assert OnServer(a, x, server);
    BaseExpected(a, x, s, dest, recorded);
  }

  lemma PrunedMapping(cfg: Config, server: string, a: Cluster, b: Cluster, recorded: seq<string>, m: nat)
    requires Ready(cfg, server) && m < |cfg.mappings| && Pruned(server, a, b)
    requires Passes(cfg, a, recorded, server, m) && AggregateMarked(cfg, a, recorded, server, m)
    ensures Passes(cfg, b, recorded, server, m) && AggregateMarked(cfg, b, recorded, server, m)
  {
    var x, y := MappingBase(cfg, a, recorded, m), MappingBase(cfg, b, recorded, m);
    var s, t := MatchedSources(cfg, a, server, m), MatchedSources(cfg, b, server, m);
    var dest := Destination(cfg, m).value.server;
    PrunedBase(cfg, server, a, b, recorded, m);
    PrunedSources(cfg, server, a, b, m);
    EmptyMappingMarked(b, y, dest, recorded);
    if x != y {
      PrunedBaseGone(cfg, server, a, b, recorded, m);
    } else if !(s == [] && RecordedFamily(recorded, x) == []) {
      assert IsDestination(cfg, dest);
      PrunedExpectation(server, a, b, x, s, t, dest, recorded);
    }
  }

  /** Deleting idle sources never changes the layout decision. */
  lemma PrunedClassify(server: string, a: Cluster, b: Cluster, base: string, s: seq<string>, t: seq<string>, dest: string, recorded: seq<string>)
    requires Pruned(server, a, b) && dest != server && |t| <= |s| && ListSum(Weights(b), t) == 0
    requires ExpectationMet(a, base, s, dest, recorded)
    requires Classify(a, base, s, dest, recorded) == Ok(Aggregate) ==> a[base].aggregate
    ensures Classify(b, base, t, dest, recorded) == Classify(a, base, s, dest, recorded)
    ensures Classify(b, base, t, dest, recorded) == Ok(Aggregate) ==> b[base].aggregate
  {
    if base in b && OnServer(b, base, dest) && !b[base].aggregate && |t| >= 2 {
      assert Classify(a, base, s, dest, recorded) == Ok(PerSource);
      assert CopyName(base, 1) in CopyNames(base, |s|);
      assert OnServer(a, CopyName(base, 1), dest);
      assert CopyName(base, 1) in b;
    }
  }

  lemma PrunedExpectation(server: string, a: Cluster, b: Cluster, base: string, s: seq<string>, t: seq<string>, dest: string, recorded: seq<string>)
    requires Pruned(server, a, b) && dest != server && |t| <= |s| && ListSum(Weights(b), t) == 0
    requires forall n | n in t :: At(Weights(b), n) == 0
    requires ExpectationMet(a, base, s, dest, recorded)
    requires Classify(a, base, s, dest, recorded) == Ok(Aggregate) ==> a[base].aggregate
    ensures ExpectationMet(b, base, t, dest, recorded)
    ensures Classify(b, base, t, dest, recorded) == Ok(Aggregate) ==> b[base].aggregate
  {
    PrunedClassify(server, a, b, base, s, t, dest, recorded);
    var e := Expected(a, base, s, dest, recorded).value;
    forall n | n in e.names ensures OnServer(b, n, dest) {
      assert OnServer(a, n, dest);
    }
    forall i | 0 <= i < |t| ensures At(Weights(b), t[i]) == 0 {
      assert t[i] in t;
    }
    assert FirstCopyProblem(b, base, t, dest, |t|).None?;
    if !e.aggregate {
      forall n | n in CopyNames(base, |t|) ensures n in e.names {
        assert n in CopyNames(base, |s|);
      }
    }
  }

  // ----- No self-deadlock -----

  /** b is what an interrupted Step 6, or an interrupted Step 8, leaves of a. */
  ghost predicate InterruptedCleanup(server: string, a: Cluster, b: Cluster) {
    Lowered(server, a, b) || Pruned(server, a, b)
  }

  /**
   Once Step 1 has accepted, the operator's own cleanup cannot block it: after lowering any subset of
   the sources to zero, and after deleting any subset of idle sources, every mapping keeps its layout
   decision and Step 1 still accepts.
   */
  lemma CleanupKeepsAccepting(cfg: Config, server: string, a: Cluster, b: Cluster, recorded: seq<string>)
    requires Ready(cfg, server) && Settled(cfg, a, recorded, server) && InterruptedCleanup(server, a, b)
    ensures Settled(cfg, b, recorded, server) && Accepts(cfg, b, recorded)
  {
    forall m | 0 <= m < |cfg.mappings|
      ensures Passes(cfg, b, recorded, server, m) && AggregateMarked(cfg, b, recorded, server, m)
    {
      assert Passes(cfg, a, recorded, server, m) && AggregateMarked(cfg, a, recorded, server, m);
      if Lowered(server, a, b) {
        LoweredMapping(cfg, server, a, b, recorded, m);
      } else {
        PrunedMapping(cfg, server, a, b, recorded, m);
      }
    }
    SettledAccepts(cfg, b, recorded, server);
  }

  /** An effect of the steps after Step 1. */
  predicate AfterStepOne(e: Effect) {
    e.Publish? || e.Scale? || e.Delete? || e.UpdateCPMS? || e.Restart?
  }

  ghost predicate CleanupStep(cfg: Config, server: string, s: State, t: State) {
    exists e :: AfterStepOne(e) && Enabled(cfg, server, s, e) && t == Next(s, e)
  }

  lemma {:induction false} MergeNothingNew(recorded: seq<string>, names: seq<string>)
    requires Elements(names) <= Elements(recorded)
    ensures MergeNames(recorded, names) == recorded
    decreases |names|
  {
    if names != [] {
      var front, last := names[..|names| - 1], names[|names| - 1];
      assert last in names && last in Elements(names);
      assert forall n | n in Elements(front) :: n in Elements(names);
      MergeNothingNew(recorded, front);
    }
  }

  lemma CleanupStepInterrupts(cfg: Config, server: string, s: State, t: State)
    requires CleanupStep(cfg, server, s, t) && s.names == s.recorded
    ensures InterruptedCleanup(server, s.sets, t.sets)
    ensures t.names == t.recorded == s.recorded
  {
    hide GateHolds, IsReplacement, IsCopyFor, MergeNames;
    var e :| AfterStepOne(e) && Enabled(cfg, server, s, e) && t == Next(s, e);
    MergeNothingNew(s.recorded, s.names);
    if e.Delete? {
      assert Pruned(server, s.sets, t.sets);
    } else {
      assert Lowered(server, s.sets, t.sets);
    }
  }

  ghost predicate IsCleanupRun(cfg: Config, server: string, run: seq<State>) {
    forall i | 0 <= i < |run| - 1 :: CleanupStep(cfg, server, run[i], run[i + 1])
  }

  /**
   Over a whole run: from a settled state whose names are published, every later state of the cleanup,
   with restarts anywhere, is settled, so each restarted reconcile passes Step 1 and resumes.
   */
  lemma {:induction false} CleanupRunStaysSettled(cfg: Config, server: string, run: seq<State>, k: nat)
    requires Ready(cfg, server) && k < |run| && IsCleanupRun(cfg, server, run)
    requires run[0].names == run[0].recorded && Settled(cfg, run[0].sets, run[0].recorded, server)
    ensures run[k].names == run[k].recorded == run[0].recorded
    ensures Settled(cfg, run[k].sets, run[k].names, server) && Accepts(cfg, run[k].sets, run[k].names)
  {
    if k > 0 {
      CleanupRunStaysSettled(cfg, server, run, k - 1);
      assert CleanupStep(cfg, server, run[k - 1], run[k - 1 + 1]);
      CleanupStepInterrupts(cfg, server, run[k - 1], run[k]);
      CleanupKeepsAccepting(cfg, server, run[k - 1].sets, run[k].sets, run[0].recorded);
    }
    SettledAccepts(cfg, run[k].sets, run[k].names, server);
  }
}
