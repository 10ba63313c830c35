/**
 Name recovery and the steps that follow an accepted Step 1: what a reconcile appends to the record,
 what it may remove, and why neither moves the migration backwards.
 */
module Recovery {
  import opened FailureDomains
  import opened Names
  import opened Sums
  import opened MachineSets
  import opened Capacity
  import opened Progress
  import opened Agreement
  import opened Records
  import opened Decisions

  /** names' adds only recovered names, each mapping's base with them. */
  ghost predicate Recovered(cfg: Config, sets: Cluster, names: seq<string>, server: string, names': seq<string>) {
    && names <= names' && Distinct(names')
    && forall n | n in names' && n !in names :: BaseKnown(cfg, sets, names, server, names', n)
  }

  lemma RecoveredInFamily(cfg: Config, sets: Cluster, names: seq<string>, server: string, m: nat, n: string)
    requires m < |cfg.mappings| && RecoveredFor(cfg, sets, names, server, m, n)
    ensures InFamily(n, MappingBase(cfg, sets, names, m))
  {
    hide MappingBase, MatchedSources, Expected;
    ExpectedInFamily(sets, MappingBase(cfg, sets, names, m), MatchedSources(cfg, sets, server, m), Destination(cfg, m).value.server, names, n);
  }

  lemma RecoveredPlaced(cfg: Config, sets: Cluster, names: seq<string>, server: string, names': seq<string>, n: string)
    requires BaseKnown(cfg, sets, names, server, names', n)
    ensures PlacedWithBase(cfg, sets, names, sets, names', n) && InSomeFamily(cfg, sets, names, n)
  {
    hide MappingBase, MatchedSources, Expected;
    var m :| 0 <= m < |cfg.mappings| && RecoveredFor(cfg, sets, names, server, m, n) && MappingBase(cfg, sets, names, m) in names';
    RecoveredInFamily(cfg, sets, names, server, m, n);
  }

  lemma RecoveredReplacement(cfg: Config, sets: Cluster, names: seq<string>, server: string, names': seq<string>, n: string)
    requires ValidCluster(sets) && BaseKnown(cfg, sets, names, server, names', n)
    ensures IsReplacement(cfg, sets, n)
  {
    hide MappingBase, MatchedSources, Expected, Owns;
    var m :| 0 <= m < |cfg.mappings| && RecoveredFor(cfg, sets, names, server, m, n);
    RecoveredInFamily(cfg, sets, names, server, m, n);
    FamilyOwned(cfg, sets, names, m, n);
    assert n in Replacements(cfg, sets, m);
  }

  lemma RecoveryConsistent(cfg: Config, sets: Cluster, recorded: seq<string>, names: seq<string>, server: string, names': seq<string>)
    requires WellFormed(cfg) && NoSuffixCut(cfg) && Consistent(cfg, sets, recorded, names)
    requires Recovered(cfg, sets, names, server, names')
    ensures Consistent(cfg, sets, recorded, names')
  {
    hide BaseKnown, PlacedWithBase, InSomeFamily, RecordsSound, MappingBase, WellFormed, NoSuffixCut;
    forall n | n in names' && n !in names ensures PlacedWithBase(cfg, sets, names, sets, names', n) && InSomeFamily(cfg, sets, names, n) {
      RecoveredPlaced(cfg, sets, names, server, names', n);
    }
    ConsistentGrows(cfg, sets, recorded, names, sets, names');
  }

  /** A name recovered into mapping m's family was expected of mapping m. */
  lemma RecoveredForOwner(cfg: Config, sets: Cluster, names: seq<string>, server: string, names': seq<string>, m: nat, n: string)
    requires WellFormed(cfg) && ValidCluster(sets) && m < |cfg.mappings|
    requires BaseKnown(cfg, sets, names, server, names', n) && InFamily(n, MappingBase(cfg, sets, names, m))
    ensures RecoveredFor(cfg, sets, names, server, m, n)
  {
    hide MappingBase, RecoveredFor;
    var k :| 0 <= k < |cfg.mappings| && RecoveredFor(cfg, sets, names, server, k, n);
    RecoveredInFamily(cfg, sets, names, server, k, n);
    SameOwner(cfg, sets, names, k, m, n);
  }

  /** Recording expected names changes neither the layout decision nor what is expected. */
  lemma RecordedExpectation(sets: Cluster, base: string, sources: seq<string>, dest: string, names: seq<string>, names': seq<string>)
    requires names <= names' && ExpectationMet(sets, base, sources, dest, names)
    requires Classify(sets, base, sources, dest, names) == Ok(Aggregate) ==> sets[base].aggregate
    requires forall n | n in RecordedFamily(names', base) ::
               n in RecordedFamily(names, base) || n in Expected(sets, base, sources, dest, names).value.names
    ensures Classify(sets, base, sources, dest, names') == Classify(sets, base, sources, dest, names)
    ensures ExpectationMet(sets, base, sources, dest, names')
  {
    hide CopyName, FirstCopyProblem, IdentityHolds, ListSum, InFamily;
    RecordedFamilyPrefix(names, names', base);
    assert Classify(sets, base, sources, dest, names') == Classify(sets, base, sources, dest, names);
    var e, e' := Expected(sets, base, sources, dest, names).value, Expected(sets, base, sources, dest, names').value;
    forall n | n in e'.names ensures OnServer(sets, n, dest) {
      assert n in e.names;
    }
  }

  lemma RecoveredMapping(cfg: Config, server: string, sets: Cluster, names: seq<string>, names': seq<string>, m: nat)
    requires WellFormed(cfg) && NoSuffixCut(cfg) && ValidCluster(sets) && m < |cfg.mappings|
    requires Recovered(cfg, sets, names, server, names')
    requires Passes(cfg, sets, names, server, m) && AggregateMarked(cfg, sets, names, server, m)
    ensures Passes(cfg, sets, names', server, m) && AggregateMarked(cfg, sets, names', server, m)
  {
    hide MappingBase, MatchedSources, Expected, ExpectationMet, BaseKnown, WellFormed, NoSuffixCut, InSomeFamily, Classify;
    var base, sources, dest := MappingBase(cfg, sets, names, m), MatchedSources(cfg, sets, server, m), Destination(cfg, m).value.server;
    forall n | n in names' && n !in names ensures InSomeFamily(cfg, sets, names, n) {
      RecoveredPlaced(cfg, sets, names, server, names', n);
    }
    BaseStable(cfg, sets, names, sets, names', m);
    forall n | n in RecordedFamily(names', base) && n !in names ensures RecoveredFor(cfg, sets, names, server, m, n) {
      RecoveredForOwner(cfg, sets, names, server, names', m, n);
    }
    if sources == [] && RecordedFamily(names, base) == [] {
      assert RecordedFamily(names', base) != [] ==> RecordedFamily(names', base)[0] in RecordedFamily(names', base);
      EmptyMappingMarked(sets, base, dest, names');
    } else {
      RecordedExpectation(sets, base, sources, dest, names, names');
    }
  }

  /** Recovery does not unsettle what Step 1 has accepted. */
  lemma RecoveryKeepsSettled(cfg: Config, server: string, sets: Cluster, names: seq<string>, names': seq<string>)
    requires WellFormed(cfg) && NoSuffixCut(cfg) && ValidCluster(sets)
    requires Recovered(cfg, sets, names, server, names') && Settled(cfg, sets, names, server)
    ensures Settled(cfg, sets, names', server)
  {
    hide Passes, AggregateMarked, Recovered, WellFormed, NoSuffixCut;
    forall m | 0 <= m < |cfg.mappings|
      ensures Passes(cfg, sets, names', server, m) && AggregateMarked(cfg, sets, names', server, m)
    {
      assert Passes(cfg, sets, names, server, m) && AggregateMarked(cfg, sets, names, server, m);
      RecoveredMapping(cfg, server, sets, names, names', m);
    }
  }

  // ----- When the coverage gate opens -----

  /** Every source falls into at most one failure domain of its vCenter, and a running one into a mapped one. */
  ghost predicate TopologyFits(cfg: Config, sets: Cluster, server: string) {
    forall n | n in ByVCenter(sets, server) ::
      && AtMostOneMatch(sets[n].provider.workspace, OnlyServer(cfg.infraFDs, server))
      && (Desired(sets[n]) > 0 ==> exists m | 0 <= m < |cfg.mappings| :: n in Matched(cfg, sets, server, m))
  }

  /** A recorded base is found under the name coverage computes for the mapping. */
  lemma RecordedBaseFound(cfg: Config, sets: Cluster, names: seq<string>, names': seq<string>, m: nat)
    requires ValidCluster(sets) && m < |cfg.mappings| && MappingBase(cfg, sets, names, m) in names'
    ensures RecordedFamily(names', BaseName(cfg.infraID, cfg.mappings[m].destination, names')) != []
  {
    var fd := cfg.mappings[m].destination;
    var base, found := MappingBase(cfg, sets, names, m), BaseName(cfg.infraID, fd, names');
    ResolveBaseOwned(cfg.infraID, fd, names, sets);
    assert found in names' && InFamily(found, found);
    assert found in RecordedFamily(names', found);
  }

  lemma SelectedMatches(cfg: Config, sets: Cluster, server: string, m: nat, n: string) returns (i: nat)
    requires m < |cfg.mappings| && n in Matched(cfg, sets, server, m)
    requires AtMostOneMatch(sets[n].provider.workspace, OnlyServer(cfg.infraFDs, server))
    ensures
      var fds := OnlyServer(cfg.infraFDs, server);
      i < |fds| && MatchesOnly(sets[n].provider.workspace, fds, i) && cfg.mappings[m].source == fds[i].name
  {
    hide Matches;
    var fds := OnlyServer(cfg.infraFDs, server);
    i :| 0 <= i < |fds| && fds[i] == FindByName(fds, cfg.mappings[m].source).value;
  }

  /** A mapping with sources that Step 1 accepts expects its base. */
  lemma SourcesExpectBase(cfg: Config, sets: Cluster, names: seq<string>, server: string, m: nat, n: string, known: seq<string>)
    requires m < |cfg.mappings| && n in Matched(cfg, sets, server, m)
    requires MappingRecovers(cfg, sets, names, server, m) && MappingKnown(cfg, sets, names, server, m, known)
    ensures MappingBase(cfg, sets, names, m) in known
  {
    hide MappingBase, Matched, Expected;
    var base, sources := MappingBase(cfg, sets, names, m), MatchedSources(cfg, sets, server, m);
    NoElements(sources);
    SourcesNeedBase(sets, base, sources, Destination(cfg, m).value.server, names);
    assert base in Elements(known);
  }

  /**
   The coverage gate cannot refuse what Step 1 accepted: once the recovered names are recorded, it opens
   exactly if the topology assigns every running source to one mapped failure domain.
   */
  lemma AcceptedCovers(cfg: Config, server: string, sets: Cluster, names: seq<string>, names': seq<string>)
    requires Ready(cfg, server) && ValidCluster(sets) && Accepts(cfg, sets, names)
    requires forall m | 0 <= m < |cfg.mappings| :: MappingKnown(cfg, sets, names, server, m, names')
    ensures CoverageHolds(cfg, sets, names', server) <==> TopologyFits(cfg, sets, server)
  {
    hide MappingBase, MappingKnown, MappingRecovers, Accepts, RecordedFamily, BaseName, Matched, AtMostOneMatch, MatchesOnly;
    AcceptedRecovers(cfg, server, sets, names);
    if TopologyFits(cfg, sets, server) {
      forall n | n in ByVCenter(sets, server) ensures SourceCovered(cfg, sets, names', server, n) {
        if Desired(sets[n]) > 0 {
          var m :| 0 <= m < |cfg.mappings| && n in Matched(cfg, sets, server, m);
          var i := SelectedMatches(cfg, sets, server, m, n);
          SourcesExpectBase(cfg, sets, names, server, m, n, names');
          RecordedBaseFound(cfg, sets, names, names', m);
        }
      }
    }
    if CoverageHolds(cfg, sets, names', server) {
      forall n | n in ByVCenter(sets, server) && Desired(sets[n]) > 0
        ensures exists m | 0 <= m < |cfg.mappings| :: n in Matched(cfg, sets, server, m)
      {
        assert SourceCovered(cfg, sets, names', server, n);
        CoveredSourceAssignedOnce(cfg, sets, names', server, n);
      }
    }
  }

  // ----- Progress of whole reconciles -----

  function Running(server: string, sets: Cluster): set<string> {
    set n | n in sets && OnServer(sets, n, server) && Desired(sets[n]) > 0
  }

  /** Steps left: missing destinations, the CPMS update, sources still running, sources still present. */
  ghost function StepsLeft(cfg: Config, server: string, s: State): nat {
    (if Accepts(cfg, s.sets, s.recorded) then 0 else 1)
    + (if s.cpms then 0 else 1)
    + |Running(server, s.sets)|
    + |ByVCenter(s.sets, server)|
  }

  /** No source is added or scaled up, and the CPMS update is not undone. */
  ghost predicate NoRegress(server: string, s: State, t: State) {
    && (s.cpms ==> t.cpms)
    && ByVCenter(t.sets, server) <= ByVCenter(s.sets, server)
    && Running(server, t.sets) <= Running(server, s.sets)
  }

  ghost predicate Advance(cfg: Config, server: string, s: State, t: State) {
    || !Accepts(cfg, s.sets, s.recorded)
    || (t.cpms && !s.cpms)
    || Running(server, t.sets) != Running(server, s.sets)
    || ByVCenter(t.sets, server) != ByVCenter(s.sets, server)
  }

  lemma StepsShrink(cfg: Config, server: string, s: State, t: State)
    requires Accepts(cfg, t.sets, t.recorded) && NoRegress(server, s, t)
    ensures StepsLeft(cfg, server, t) <= StepsLeft(cfg, server, s)
    ensures Advance(cfg, server, s, t) ==> StepsLeft(cfg, server, t) < StepsLeft(cfg, server, s)
  {
    hide Accepts, ByVCenter, Running;
    SubsetCard(ByVCenter(t.sets, server), ByVCenter(s.sets, server));
    SubsetCard(Running(server, t.sets), Running(server, s.sets));
  }

  lemma LoweredRunning(server: string, a: Cluster, b: Cluster)
    requires Lowered(server, a, b)
    ensures ByVCenter(b, server) == ByVCenter(a, server) && Running(server, b) <= Running(server, a)
  {
  }

  lemma PrunedRunning(server: string, a: Cluster, b: Cluster)
    requires Pruned(server, a, b)
    ensures ByVCenter(b, server) <= ByVCenter(a, server) && Running(server, b) <= Running(server, a)
  {
  }

  lemma SameSourcesRunning(server: string, a: Cluster, b: Cluster)
    requires ByVCenter(b, server) == ByVCenter(a, server) && Weights(b) == Weights(a)
    ensures Running(server, b) == Running(server, a)
  {
    assert forall n | n in a :: Weights(a)[n] == Desired(a[n]);
    assert forall n | n in b :: Weights(b)[n] == Desired(b[n]);
    assert forall n | n in Running(server, a) :: n in ByVCenter(a, server);
    assert forall n | n in Running(server, b) :: n in ByVCenter(b, server);
  }

  lemma UntouchedRunning(server: string, a: Cluster, b: Cluster)
    requires SourcesUntouched(server, a, b)
    ensures ByVCenter(b, server) == ByVCenter(a, server) && Running(server, b) == Running(server, a)
  {
    assert forall n | n in Running(server, a) :: n in ByVCenter(a, server);
    assert forall n | n in Running(server, b) :: n in ByVCenter(b, server);
  }

  lemma LoweredTrans(server: string, a: Cluster, b: Cluster, n: string)
    requires Lowered(server, a, b) && OnServer(b, n, server)
    ensures Lowered(server, a, b[n := b[n].(replicas := Some(0))])
  {
  }

  lemma PrunedTrans(server: string, a: Cluster, b: Cluster, n: string)
    requires Pruned(server, a, b) && OnServer(b, n, server)
    ensures Pruned(server, a, b - {n})
  {
  }
}
