/** The readiness wait in front of the control plane update and scale-down. */
module WorkerReadiness {
  import opened FailureDomains
  import opened Names
  import opened Sums
  import opened MachineSets
  import opened Capacity
  import opened Progress
  import opened Agreement
  import opened Records

  /** What the machine and node checks report for one MachineSet. */
  datatype Readiness = Readiness(machinesComplete: bool, machines: nat, nodesComplete: bool, nodes: nat)

  type Reports = map<string, Readiness>

  function NodeCounts(reports: Reports): map<string, nat> {
    map n | n in reports :: reports[n].nodes
  }

  /** Enough ready machines and nodes for every desired replica; a MachineSet at zero is not waited for. */
  predicate MachineSetReady(sets: Cluster, reports: Reports, n: string) {
    && n in sets
    && (Desired(sets[n]) > 0 ==>
          && n in reports
          && reports[n].machinesComplete && reports[n].machines >= Desired(sets[n])
          && reports[n].nodesComplete && reports[n].nodes >= Desired(sets[n]))
  }

  /** Readiness skips a mapping only if it has no sources, no recorded names and no destination MachineSets. */
  ghost predicate Awaited(cfg: Config, sets: Cluster, names: seq<string>, m: nat)
    requires m < |cfg.mappings|
  {
    var base := BaseName(cfg.infraID, cfg.mappings[m].destination, names);
    match FindByName(cfg.infraFDs, cfg.mappings[m].source)
    case None => true
    case Some(fd) =>
      || ByFailureDomain(sets, fd.server, fd) != {}
      || RecordedFamily(names, base) != []
      || exists n | n in sets :: InFamily(n, base)
  }

  /** The MachineSets of mapping m that are waited for: its base, its family in the cluster, and its recorded names. */
  function WaitedNames(cfg: Config, sets: Cluster, names: seq<string>, m: nat): set<string>
    requires m < |cfg.mappings|
  {
    var base := MappingBase(cfg, sets, names, m);
    {base} + (set n | n in sets && InFamily(n, base)) + Elements(RecordedFamily(names, base))
  }

  /** Every awaited mapping is ready, and recorded names never pass on an empty list of mappings. */
  ghost predicate WorkersReady(cfg: Config, sets: Cluster, names: seq<string>, reports: Reports) {
    && (names != [] ==> exists m | 0 <= m < |cfg.mappings| :: Awaited(cfg, sets, names, m))
    && forall m | 0 <= m < |cfg.mappings| && Awaited(cfg, sets, names, m) ::
         forall n | n in WaitedNames(cfg, sets, names, m) :: MachineSetReady(sets, reports, n)
  }

  method FamilyExists(sets: Cluster, base: string) returns (found: bool)
    ensures found <==> exists n | n in sets :: InFamily(n, base)
  {
    hide InFamily;
    var todo := sets.Keys;
    while todo != {}
      invariant todo <= sets.Keys
      invariant forall n | n in sets && n !in todo :: !InFamily(n, base)
      decreases |todo|
    {
      var n :| n in todo;
      if InFamily(n, base) {
        return true;
      }
      todo := todo - {n};
    }
    return false;
  }

  method IsAwaited(cfg: Config, sets: Cluster, names: seq<string>, m: nat) returns (r: bool)
    requires m < |cfg.mappings|
    ensures r <==> Awaited(cfg, sets, names, m)
  {
    var source := FindByName(cfg.infraFDs, cfg.mappings[m].source);
    if source.None? {
      return true;
    }
    if ByFailureDomain(sets, source.value.server, source.value) != {} {
      return true;
    }
    var base := BaseName(cfg.infraID, cfg.mappings[m].destination, names);
    if RecordedFamily(names, base) != [] {
      return true;
    }
    r := FamilyExists(sets, base);
  }

  /** A MachineSet that is waited for does not exist. */
  ghost predicate WaitedMissing(cfg: Config, sets: Cluster, names: seq<string>) {
    exists m, n | 0 <= m < |cfg.mappings| && Awaited(cfg, sets, names, m) && n in WaitedNames(cfg, sets, names, m) :: n !in sets
  }

  datatype Wait = Over | NotYet | Broken

  /** Checks the waited names; one that does not exist is an error, whatever the others report. */
  method CheckWaited(sets: Cluster, reports: Reports, waited: set<string>) returns (r: Wait)
    ensures r.Over? <==> forall n | n in waited :: MachineSetReady(sets, reports, n)
    ensures r.Over? <==> forall n | n in waited ::
              && n in sets
              && (Desired(sets[n]) == 0
                  || (&& n in reports && reports[n].machinesComplete && reports[n].nodesComplete
                      && Desired(sets[n]) <= reports[n].machines && Desired(sets[n]) <= reports[n].nodes))
    ensures r.Broken? <==> exists n | n in waited :: n !in sets
  {
    r := Over;
    var todo := waited;
    while todo != {}
      invariant todo <= waited && !r.Broken?
      invariant forall n | n in waited && n !in todo :: n in sets
      invariant r.Over? <==> forall n | n in waited && n !in todo :: MachineSetReady(sets, reports, n)
      decreases |todo|
    {
      var n :| n in todo;
      if n !in sets {
        return Broken;
      }
      todo := todo - {n};
      if !MachineSetReady(sets, reports, n) {
        r := NotYet;
      }
    }
  }

  /** A mapping is skipped exactly if its source failure domain is known but selects nothing, and nothing of its family exists or is recorded. */
  lemma SkippedMeansNothing(cfg: Config, sets: Cluster, names: seq<string>, m: nat)
    requires m < |cfg.mappings|
    ensures
      var source, base := FindByName(cfg.infraFDs, cfg.mappings[m].source), BaseName(cfg.infraID, cfg.mappings[m].destination, names);
      !Awaited(cfg, sets, names, m) <==>
        && source.Some?
        && (forall n | n in sets && OnServer(sets, n, source.value.server) :: !Matches(sets[n].provider.workspace, source.value))
        && forall n | n in sets || n in names :: !InFamily(n, base)
  {
    hide InFamily, Matches, BaseName;
    var source, base := FindByName(cfg.infraFDs, cfg.mappings[m].source), BaseName(cfg.infraID, cfg.mappings[m].destination, names);
    var recorded := RecordedFamily(names, base);
    assert recorded != [] ==> recorded[0] in recorded && recorded[0] in names;
    if source.Some? {
      var selected := ByFailureDomain(sets, source.value.server, source.value);
      assert forall n | n in sets && OnServer(sets, n, source.value.server) && Matches(sets[n].provider.workspace, source.value) :: n in selected;
      if selected != {} {
        var n :| n in selected;
        assert OnServer(sets, n, source.value.server) && Matches(sets[n].provider.workspace, source.value);
      }
    }
  }

  /**
   The wait is over exactly if some mapping is waited for whenever names are recorded, and for each such
   mapping the base, every MachineSet of its family and every name recorded in it are ready.
   */
  lemma ReadyMeansAll(cfg: Config, sets: Cluster, names: seq<string>, reports: Reports)
    ensures WorkersReady(cfg, sets, names, reports) <==>
              && (names == [] || exists m | 0 <= m < |cfg.mappings| :: Awaited(cfg, sets, names, m))
              && forall m, n | 0 <= m < |cfg.mappings| && Awaited(cfg, sets, names, m)
                               && (n == MappingBase(cfg, sets, names, m) || (InFamily(n, MappingBase(cfg, sets, names, m)) && (n in sets || n in names))) ::
                   MachineSetReady(sets, reports, n)
  {
    hide Awaited, MappingBase, InFamily, WaitedNames, MachineSetReady;
    forall m, n | 0 <= m < |cfg.mappings| && Awaited(cfg, sets, names, m)
      ensures
        var waited := n == MappingBase(cfg, sets, names, m) || (InFamily(n, MappingBase(cfg, sets, names, m)) && (n in sets || n in names));
        && (waited && WorkersReady(cfg, sets, names, reports) ==> MachineSetReady(sets, reports, n))
        && (n in WaitedNames(cfg, sets, names, m) ==> waited)
    {
      WaitedExactly(cfg, sets, names, m, n);
    }
  }

  lemma WaitedExactly(cfg: Config, sets: Cluster, names: seq<string>, m: nat, n: string)
    requires m < |cfg.mappings|
    ensures n in WaitedNames(cfg, sets, names, m) <==>
              n == MappingBase(cfg, sets, names, m) || (InFamily(n, MappingBase(cfg, sets, names, m)) && (n in sets || n in names))
  {
    hide MappingBase, InFamily;
  }

  method CheckWorkerReadiness(cfg: Config, sets: Cluster, names: seq<string>, reports: Reports) returns (r: Wait)
    ensures r.Over? <==> WorkersReady(cfg, sets, names, reports)
    ensures r.Broken? <==> WaitedMissing(cfg, sets, names)
  {
    hide Awaited, WaitedNames, MachineSetReady;
    r := Over;
    var any := false;
    for m := 0 to |cfg.mappings|
      invariant any <==> exists k | 0 <= k < m :: Awaited(cfg, sets, names, k)
      invariant !r.Broken?
      invariant forall k, n | 0 <= k < m && Awaited(cfg, sets, names, k) && n in WaitedNames(cfg, sets, names, k) :: n in sets
      invariant r.Over? <==>
        forall k | 0 <= k < m && Awaited(cfg, sets, names, k) ::
          forall n | n in WaitedNames(cfg, sets, names, k) :: MachineSetReady(sets, reports, n)
    {
      var awaited := IsAwaited(cfg, sets, names, m);
      if awaited {
        any := true;
        var wait := CheckWaited(sets, reports, WaitedNames(cfg, sets, names, m));
        if wait.Broken? {
          return Broken;
        }
        if wait.NotYet? {
          r := NotYet;
        }
      }
    }
    if !any && names != [] {
      r := NotYet;
    }
  }

  /** Passing the readiness wait means every destination family with sources runs enough ready nodes. */
  lemma ReadinessMeansNodes(cfg: Config, sets: Cluster, names: seq<string>, server: string, reports: Reports)
    requires SharedSource(cfg, server) && WorkersReady(cfg, sets, names, reports)
    ensures NodesReady(cfg, sets, names, server, NodeCounts(reports))
  {
    hide MappingBase, InFamily, BaseName, SharedSource;
    forall m, n | 0 <= m < |cfg.mappings| && Matched(cfg, sets, server, m) != {} && n in Family(cfg, sets, names, m)
      ensures At(Weights(sets), n) <= At(NodeCounts(reports), n)
    {
      SourceIsAwaited(cfg, sets, names, server, m);
      assert n in WaitedNames(cfg, sets, names, m);
      assert MachineSetReady(sets, reports, n);
    }
  }

  lemma SourceIsAwaited(cfg: Config, sets: Cluster, names: seq<string>, server: string, m: nat)
    requires SharedSource(cfg, server) && m < |cfg.mappings| && Matched(cfg, sets, server, m) != {}
    ensures Awaited(cfg, sets, names, m)
  {
    FindOnServer(cfg.infraFDs, cfg.mappings[m].source, server);
  }

  /** A suffixed MachineSet without its base, for a mapping that has neither sources nor recorded names. */
  ghost predicate StrayCopy(cfg: Config, sets: Cluster, names: seq<string>, server: string, m: nat)
    requires m < |cfg.mappings|
  {
    var base := MappingBase(cfg, sets, names, m);
    && MatchedSources(cfg, sets, server, m) == [] && RecordedFamily(names, base) == []
    && base !in sets && exists n | n in sets :: IsSuffixed(n, base)
  }

  lemma MissingBaseIsPlain(cfg: Config, sets: Cluster, names: seq<string>, m: nat)
    requires m < |cfg.mappings| && MappingBase(cfg, sets, names, m) !in sets
    ensures MappingBase(cfg, sets, names, m) == BaseName(cfg.infraID, cfg.mappings[m].destination, names)
  {
  }

  lemma AcceptedBaseExists(cfg: Config, sets: Cluster, names: seq<string>, server: string, m: nat)
    requires m < |cfg.mappings| && Passes(cfg, sets, names, server, m) && RecordSound(cfg, sets, names, m)
    requires MatchedSources(cfg, sets, server, m) != [] || RecordedFamily(names, MappingBase(cfg, sets, names, m)) != []
    ensures MappingBase(cfg, sets, names, m) in sets
  {
    hide MappingBase, MatchedSources;
    var base, dest := MappingBase(cfg, sets, names, m), Destination(cfg, m).value.server;
    BaseExpected(sets, base, MatchedSources(cfg, sets, server, m), dest, names);
    assert base in names ==> base in RecordedFamily(names, base);
  }

  lemma WaitedExists(cfg: Config, sets: Cluster, names: seq<string>, server: string, m: nat, n: string)
    requires Ready(cfg, server) && m < |cfg.mappings| && Passes(cfg, sets, names, server, m) && RecordSound(cfg, sets, names, m)
    requires Awaited(cfg, sets, names, m) && n in WaitedNames(cfg, sets, names, m) && n !in sets
    ensures StrayCopy(cfg, sets, names, server, m)
  {
    hide MappingBase, BaseName, Passes;
    var base := MappingBase(cfg, sets, names, m);
    SourcesAgree(cfg, sets, server, m);
    assert n in RecordedFamily(names, base) ==> OnServer(sets, n, Destination(cfg, m).value.server);
    assert n == base;
    MissingBaseIsPlain(cfg, sets, names, m);
    NoElements(MatchedSources(cfg, sets, server, m));
    if MatchedSources(cfg, sets, server, m) != [] || RecordedFamily(names, base) != [] {
      AcceptedBaseExists(cfg, sets, names, server, m);
    }
  }

  /** In a state Step 1 accepts, only a stray copy makes the readiness wait fail. */
  lemma OnlyStraysBreakReadiness(cfg: Config, sets: Cluster, names: seq<string>, server: string)
    requires Ready(cfg, server) && RecordsSound(cfg, sets, names) && Accepts(cfg, sets, names) && WaitedMissing(cfg, sets, names)
    ensures exists m | 0 <= m < |cfg.mappings| :: StrayCopy(cfg, sets, names, server, m)
  {
    hide Awaited, WaitedNames, StrayCopy, MappingPasses, Passes, RecordSound, Ready;
    var m, n :| 0 <= m < |cfg.mappings| && Awaited(cfg, sets, names, m) && n in WaitedNames(cfg, sets, names, m) && n !in sets;
    assert MappingPasses(cfg, sets, names, m) && RecordSound(cfg, sets, names, m);
    PassesIsStepOne(cfg, sets, names, server, m);
    WaitedExists(cfg, sets, names, server, m, n);
  }
}
