/**
 When creation is free to run: a fresh migration is only stopped by what preflight should have caught, and a
 creation that was not blocked when it started is not blocked when it is taken up again.
 */
module CreationRetry {
  import opened FailureDomains
  import opened Names
  import opened Sums
  import opened MachineSets
  import opened Capacity
  import opened Progress
  import opened Agreement
  import opened Records
  import opened Creation
  import opened CreationOutcome

  /** Nothing that any mapped destination may own exists or is recorded. */
  ghost predicate Fresh(cfg: Config, sets: Cluster, names: seq<string>) {
    forall m, n | 0 <= m < |cfg.mappings| && (n in sets || n in names) :: !Owns(cfg.infraID, cfg.mappings[m].destination, n)
  }

  lemma FreshPlan(cfg: Config, sets: Cluster, names: seq<string>, server: string, m: nat)
    requires ValidCluster(sets) && Fresh(cfg, sets, names) && m < |cfg.mappings| && Destination(cfg, m).Some?
    ensures RecordedFamily(names, MappingBase(cfg, sets, names, m)) == []
    ensures forall i: nat :: CopyName(MappingBase(cfg, sets, names, m), i) !in sets && CopyName(MappingBase(cfg, sets, names, m), i) !in names
    ensures Plan(cfg, sets, names, server, m) ==
              Ok(Expectation(CopyNames(MappingBase(cfg, sets, names, m), |MatchedSources(cfg, sets, server, m)|), false))
  {
    hide MappingBase, MatchedSources, CopyName, Owns, InFamily, FirstCopyProblem;
    var base, sources, dest := MappingBase(cfg, sets, names, m), MatchedSources(cfg, sets, server, m), Destination(cfg, m).value.server;
    forall i: nat ensures CopyName(base, i) !in sets && CopyName(base, i) !in names {
      CopyInFamily(base, i);
      FamilyOwned(cfg, sets, names, m, CopyName(base, i));
    }
    var family := RecordedFamily(names, base);
    if family != [] {
      assert family[0] in family;
      FamilyOwned(cfg, sets, names, m, family[0]);
    }
    BaseIsFirstCopy(base);
    assert Classify(sets, base, sources, dest, names) == Ok(PerSource);
    forall i: nat | i < |sources| ensures CopyProblem(sets, base, sources, dest, i).None? {
    }
    assert FirstCopyProblem(sets, base, sources, dest, |sources|).None?;
    NoElements(family);
    assert Elements(family) + CopyNames(base, |sources|) == CopyNames(base, |sources|);
  }

  lemma FreshMappingFree(cfg: Config, sets: Cluster, names: seq<string>, server: string, m: nat)
    requires ValidCluster(sets) && Fresh(cfg, sets, names) && m < |cfg.mappings|
    ensures MappingBlocked(cfg, sets, names, server, m) <==> Destination(cfg, m).None?
  {
    hide MappingBase, MatchedSources, CopyName, Plan, Fresh;
    if Destination(cfg, m).Some? {
      FreshPlan(cfg, sets, names, server, m);
    }
  }

  /**
   On a fresh migration creation is blocked exactly if a destination does not exist, the names to record are
   too many, or two mappings select the same source.
   */
  lemma FreshCreationFree(cfg: Config, sets: Cluster, names: seq<string>, server: string)
    requires ValidCluster(sets) && Fresh(cfg, sets, names)
    ensures CreationBlocked(cfg, sets, names, server) <==>
              || (exists m | 0 <= m < |cfg.mappings| :: Destination(cfg, m).None?)
              || |PlannedUnion(cfg, sets, names, server, |cfg.mappings|)| > 256
              || exists i, j, n | 0 <= i < j < |cfg.mappings| ::
                   n in Matched(cfg, sets, server, i) && n in Matched(cfg, sets, server, j)
  {
    hide MappingBlocked, PlannedUnion, Fresh, Matched, Destination;
    forall m | 0 <= m < |cfg.mappings|
      ensures MappingBlocked(cfg, sets, names, server, m) <==> Destination(cfg, m).None?
    {
      FreshMappingFree(cfg, sets, names, server, m);
    }
    ContestedIsShared(cfg, sets, server);
  }

  lemma ContestedIsShared(cfg: Config, sets: Cluster, server: string)
    ensures (exists i, j :: Contested(cfg, sets, server, i, j)) <==>
              exists i, j, n | 0 <= i < j < |cfg.mappings| :: n in Matched(cfg, sets, server, i) && n in Matched(cfg, sets, server, j)
  {
    hide Matched;
    if i, j :| Contested(cfg, sets, server, i, j) {
      var n :| n in Elements(MatchedSources(cfg, sets, server, i)) * Elements(MatchedSources(cfg, sets, server, j));
      assert n in Matched(cfg, sets, server, i) && n in Matched(cfg, sets, server, j);
    }
    if i, j, n :| 0 <= i < j < |cfg.mappings| && n in Matched(cfg, sets, server, i) && n in Matched(cfg, sets, server, j) {
      assert n in Elements(MatchedSources(cfg, sets, server, i)) * Elements(MatchedSources(cfg, sets, server, j));
      assert Contested(cfg, sets, server, i, j);
    }
  }

  // ----- Taking it up again -----

  lemma CopyStaysFree(cfg: Config, server: string, sets0: Cluster, names0: seq<string>, sets: Cluster, names: seq<string>, m: nat, i: nat)
    requires Ready(cfg, server) && ValidCluster(sets0)
    requires m < |cfg.mappings| && Destination(cfg, m).Some? && i < |MatchedSources(cfg, sets0, server, m)|
    requires Creating(cfg, server, sets0, names0, sets, names)
    requires
      var name, source := CopyName(MappingBase(cfg, sets0, names0, m), i), MatchedSources(cfg, sets0, server, m)[i];
      !CopyBlocked(sets0, names0, name, source, At(Weights(sets0), source) > 0, Destination(cfg, m).value.server)
    ensures
      var name, source := CopyName(MappingBase(cfg, sets0, names0, m), i), MatchedSources(cfg, sets0, server, m)[i];
      !CopyBlocked(sets, names, name, source, At(Weights(sets0), source) > 0, Destination(cfg, m).value.server)
  {
    hide MappingBase, MatchedSources, CopyName, Ready, Plan;
    var name, source := CopyName(MappingBase(cfg, sets0, names0, m), i), MatchedSources(cfg, sets0, server, m)[i];
    ReadyIsWellFormed(cfg, server);
    if name in sets && name !in sets0 {
      FreshCopyExact(cfg, server, sets0, names0, sets, names, m, i);
    }
    if name in names && name !in names0 {
      NotedStands(cfg, server, sets0, names0, sets, names, name);
    }
  }

  lemma NotedStands(cfg: Config, server: string, sets0: Cluster, names0: seq<string>, sets: Cluster, names: seq<string>, n: string)
    requires Creating(cfg, server, sets0, names0, sets, names) && n in names && n !in names0
    ensures n in sets
  {
    hide OnlyPlannedAdded, MappingBase;
    assert PlacedWithBase(cfg, sets0, names0, sets, names, n);
  }

  lemma MappingStaysFree(cfg: Config, server: string, sets0: Cluster, names0: seq<string>, sets: Cluster, names: seq<string>, m: nat)
    requires Ready(cfg, server) && NoSuffixCut(cfg) && ValidCluster(sets0) && Distinct(names0) && m < |cfg.mappings|
    requires RecordPlaced(cfg, sets0, names0, m) && !Disagrees(cfg, sets0, names0, server, m)
    requires Creating(cfg, server, sets0, names0, sets, names) && !MappingBlocked(cfg, sets0, names0, server, m)
    ensures !MappingBlocked(cfg, sets, names, server, m)
  {
    hide MappingBase, MatchedSources, CopyName, Ready, NoSuffixCut, Plan, Disagrees, CopyBlocked, WellFormed, ValidCluster, LayoutKept, Planned, CopiesSource;
    ReadyIsWellFormed(cfg, server);
    CreatedView(cfg, server, sets0, names0, sets, names, m);
    PlannedSourceWeights(cfg, server, sets0, names0, sets, names, m);
    if MatchedSources(cfg, sets0, server, m) == [] {
      FinishedResumes(cfg, server, sets0, names0, sets, names, m);
      NoSourcesNoBlock(cfg, sets, names, server, m);
    } else {
      LayoutKeptByCreation(cfg, server, sets0, names0, sets, names, m);
      PlanResumes(cfg, server, sets0, names0, sets, names, m);
      forall i | 0 <= i < |MatchedSources(cfg, sets0, server, m)| && CopyName(MappingBase(cfg, sets0, names0, m), i) in Plan(cfg, sets0, names0, server, m).value.names
        ensures
          var name, source := CopyName(MappingBase(cfg, sets0, names0, m), i), MatchedSources(cfg, sets0, server, m)[i];
          !CopyBlocked(sets, names, name, source, At(Weights(sets), source) > 0, Destination(cfg, m).value.server)
      {
        assert MatchedSources(cfg, sets0, server, m)[i] in MatchedSources(cfg, sets0, server, m);
        CopyStaysFree(cfg, server, sets0, names0, sets, names, m, i);
      }
    }
  }

  /**
   A creation that nothing blocked when it started can always be taken up again: wherever a failing call or a
   crash cut it off, what it has added blocks nothing.
   */
  lemma RetryNotBlocked(cfg: Config, server: string, sets0: Cluster, names0: seq<string>, sets: Cluster, names: seq<string>, plans: seq<PlanEntry>)
    requires Ready(cfg, server) && NoSuffixCut(cfg) && ValidCluster(sets0) && Distinct(names0)
    requires RecordsPlaced(cfg, sets0, names0) && RecordsAgree(cfg, sets0, names0, server)
    requires Creating(cfg, server, sets0, names0, sets, names)
    requires PlansUpTo(cfg, sets0, names0, server, plans, |cfg.mappings|)
    requires !CreationBlocked(cfg, sets0, names0, server)
    ensures !CreationBlocked(cfg, sets, names, server)
  {
    hide MappingBlocked, Ready, NoSuffixCut, Disagrees, RecordPlaced, PlannedUnion, PlansUpTo, ValidCluster, Creating, Matched;
    ResumedUnionSame(cfg, server, sets0, names0, sets, names, plans);
    forall m | 0 <= m < |cfg.mappings| ensures !MappingBlocked(cfg, sets, names, server, m) {
      assert RecordPlaced(cfg, sets0, names0, m) && !Disagrees(cfg, sets0, names0, server, m);
      MappingStaysFree(cfg, server, sets0, names0, sets, names, m);
    }
    forall i: nat, j: nat ensures !Contested(cfg, sets, server, i, j) {
      assert !Contested(cfg, sets0, server, i, j);
      if i < |cfg.mappings| && j < |cfg.mappings| {
        SourcesKept(cfg, server, sets0, names0, sets, names, i);
        SourcesKept(cfg, server, sets0, names0, sets, names, j);
      }
    }
  }

  lemma SourcesKept(cfg: Config, server: string, sets0: Cluster, names0: seq<string>, sets: Cluster, names: seq<string>, m: nat)
    requires Ready(cfg, server) && m < |cfg.mappings| && Creating(cfg, server, sets0, names0, sets, names)
    ensures MatchedSources(cfg, sets, server, m) == MatchedSources(cfg, sets0, server, m)
  {
    hide OnlyPlannedAdded, MatchedSources;
    PlannedSourceWeights(cfg, server, sets0, names0, sets, names, m);
  }
}
