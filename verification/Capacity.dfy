/**
 Capacity safety of the workload step over whole runs. A run is any sequence of the operator's single
 API effects, with a crash possible between any two; its guards are what the reconciler has checked
 when it performs the effect.
 */
module Capacity {
  import opened FailureDomains
  import opened Names
  import opened Sums
  import opened MachineSets

  // ----- The scale-down gate -----

  /** Mapping m's replacements run at least as many replicas as its sources. */
  ghost predicate Covered(cfg: Config, sets: Cluster, server: string, m: nat)
    requires m < |cfg.mappings|
  {
    Sum(Weights(sets), Matched(cfg, sets, server, m)) <= Sum(Weights(sets), Replacements(cfg, sets, m))
  }

  /** Exactly one mapping selects source MachineSet n. */
  ghost predicate AssignedOnce(cfg: Config, sets: Cluster, server: string, n: string) {
    exists m | 0 <= m < |cfg.mappings| ::
      && n in Matched(cfg, sets, server, m)
      && forall k | 0 <= k < |cfg.mappings| && k != m :: n !in Matched(cfg, sets, server, k)
  }

  ghost predicate GateHolds(cfg: Config, sets: Cluster, server: string) {
    && (forall m | 0 <= m < |cfg.mappings| :: Covered(cfg, sets, server, m))
    && (forall n | n in ByVCenter(sets, server) && Desired(sets[n]) > 0 :: AssignedOnce(cfg, sets, server, n))
  }

  /** Positional copies at least as large as their sources: their names are distinct, so their sum is too. */
  lemma {:induction false} CopiesCoverSources(sets: Cluster, base: string, sources: seq<string>, k: nat)
    requires k <= |sources|
    requires forall i | 0 <= i < k :: At(Weights(sets), sources[i]) <= At(Weights(sets), CopyName(base, i))
    ensures ListSum(Weights(sets), sources[..k]) <= Sum(Weights(sets), CopyNames(base, k))
  {
    hide CopyName;
    var w := Weights(sets);
    if k > 0 {
      CopiesCoverSources(sets, base, sources, k - 1);
      assert sources[..k][..k - 1] == sources[..k - 1];
      var name := CopyName(base, k - 1);
      assert CopyNames(base, k) == CopyNames(base, k - 1) + {name};
      forall i | 0 <= i < k - 1 ensures CopyName(base, i) != name {
        if CopyName(base, i) == name { CopyNameInjective(base, i, k - 1); }
      }
      SumAdd(w, CopyNames(base, k - 1), name);
    } else {
      assert sources[..0] == [];
    }
  }

  /** Whatever layout is accepted, the expected names hold the capacity of all sources. */
  lemma ExpectedHoldsCapacity(sets: Cluster, base: string, sources: seq<string>, server: string, recorded: seq<string>)
    requires Expected(sets, base, sources, server, recorded).Ok?
    requires AllOnServer(sets, Expected(sets, base, sources, server, recorded).value.names, server)
    ensures ListSum(Weights(sets), sources) <= Sum(Weights(sets), Expected(sets, base, sources, server, recorded).value.names)
  {
    var w, e := Weights(sets), Expected(sets, base, sources, server, recorded).value;
    if e.aggregate {
      SumSubset(w, {base}, e.names);
      SumAdd(w, {}, base);
      assert {} + {base} == {base};
    } else {
      forall i | 0 <= i < |sources| ensures At(w, sources[i]) <= At(w, CopyName(base, i)) {
        assert CopyName(base, i) in CopyNames(base, |sources|);
        assert CopyProblem(sets, base, sources, server, i).None?;
      }
      CopiesCoverSources(sets, base, sources, |sources|);
      assert sources[..|sources|] == sources;
      SumSubset(w, CopyNames(base, |sources|), e.names);
    }
  }

  lemma RecoveredMappingCovered(cfg: Config, sets: Cluster, recorded: seq<string>, server: string, m: nat)
    requires m < |cfg.mappings| && ValidCluster(sets)
    requires MappingRecovers(cfg, sets, recorded, server, m)
    ensures Covered(cfg, sets, server, m)
  {
    var w, base := Weights(sets), MappingBase(cfg, sets, recorded, m);
    var sources := MatchedSources(cfg, sets, server, m);
    var destination := cfg.mappings[m].destination;
    var destServer := Destination(cfg, m).value.server;
    ListSumIsSum(w, sources);
    ResolveBaseOwned(cfg.infraID, destination, recorded, sets);
    if !(sources == [] && RecordedFamily(recorded, base) == []) {
      ExpectedHoldsCapacity(sets, base, sources, destServer, recorded);
      var names := Expected(sets, base, sources, destServer, recorded).value.names;
      forall n | n in names ensures n in Replacements(cfg, sets, m) {
        ExpectedInFamily(sets, base, sources, destServer, recorded, n);
      }
      SumSubset(w, names, Replacements(cfg, sets, m));
    }
  }

  lemma {:induction false} OnlyServerDistinct(fds: seq<FailureDomain>, server: string)
    requires Distinct(NamesOf(fds))
    ensures Distinct(NamesOf(OnlyServer(fds, server)))
    decreases |fds|
  {
    if fds != [] {
      var names := NamesOf(fds);
      assert names == [fds[0].name] + NamesOf(fds[1..]);
      assert names[1..] == NamesOf(fds[1..]);
      assert Distinct(names[1..]);
      OnlyServerDistinct(fds[1..], server);
      if fds[0].server == server {
        HeadNameFresh(fds, OnlyServer(fds[1..], server));
        ConsElements(fds[0].name, NamesOf(OnlyServer(fds[1..], server)));
      }
    }
  }

  /** A mapping selects the MachineSets placed on the source server, in the datacenter and pool of its source failure domain. */
  lemma MatchedExactly(cfg: Config, sets: Cluster, server: string, m: nat, n: string)
    requires m < |cfg.mappings| && Distinct(NamesOf(cfg.infraFDs))
    ensures n in Matched(cfg, sets, server, m) <==>
              && n in sets && sets[n].provider.Placed? && sets[n].provider.workspace.server == server
              && exists fd | fd in cfg.infraFDs ::
                   && fd.name == cfg.mappings[m].source && fd.server == server
                   && fd.datacenter == sets[n].provider.workspace.datacenter
                   && (fd.resourcePool != "" ==> sets[n].provider.workspace.pool == fd.resourcePool)
                   && (fd.resourcePool == "" && fd.computeCluster != "" ==> sets[n].provider.workspace.pool == fd.computeCluster + "/Resources")
  {
    var fds, source := OnlyServer(cfg.infraFDs, server), cfg.mappings[m].source;
    OnlyServerDistinct(cfg.infraFDs, server);
    forall fd | fd in cfg.infraFDs && fd.name == source && fd.server == server ensures FindByName(fds, source) == Some(fd) {
      var i :| 0 <= i < |fds| && fds[i] == fd;
      FindDistinct(fds, i);
    }
    if n in sets && sets[n].provider.Placed? && FindByName(fds, source).Some? {
      MatchesByPool(sets[n].provider.workspace, FindByName(fds, source).value);
    }
  }

  lemma HeadNameFresh(fds: seq<FailureDomain>, rest: seq<FailureDomain>)
    requires fds != [] && Distinct(NamesOf(fds)) && forall fd | fd in rest :: fd in fds[1..]
    ensures fds[0].name !in Elements(NamesOf(rest))
    ensures NamesOf([fds[0]] + rest) == [fds[0].name] + NamesOf(rest)
  {
    var names := NamesOf(fds);
    forall i | 0 <= i < |rest| ensures NamesOf(rest)[i] != fds[0].name {
      assert rest[i] in fds[1..];
      var k :| 0 <= k < |fds[1..]| && fds[1..][k] == rest[i];
      assert names[0] != names[k + 1];
    }
  }

  /**
   Topologies that passed the disjointness check give every mapping its own sources, so no source is
   ever assigned twice.
   */
  lemma MatchedDisjoint(cfg: Config, sets: Cluster, server: string, i: nat, j: nat)
    requires i < |cfg.mappings| && j < |cfg.mappings| && i != j && Distinct(SourcesOf(cfg.mappings))
    requires forall ws :: AtMostOneMatch(ws, OnlyServer(cfg.infraFDs, server))
    ensures Matched(cfg, sets, server, i) !! Matched(cfg, sets, server, j)
  {
    hide Matches;
    var fds := OnlyServer(cfg.infraFDs, server);
    forall n | n in Matched(cfg, sets, server, i) ensures n !in Matched(cfg, sets, server, j) {
      var ws := sets[n].provider.workspace;
      var a :| 0 <= a < |fds| && fds[a] == FindByName(fds, cfg.mappings[i].source).value;
      assert AtMostOneMatch(ws, fds) && Matches(ws, fds[a]);
      assert MatchesOnly(ws, fds, a);
      OtherMappingDoesNotSelect(cfg, sets, server, n, a, i, j);
    }
  }

  lemma OtherMappingDoesNotSelect(cfg: Config, sets: Cluster, server: string, n: string, i: nat, m: nat, k: nat)
    requires n in ByVCenter(sets, server) && Distinct(SourcesOf(cfg.mappings))
    requires MatchesOnly(sets[n].provider.workspace, OnlyServer(cfg.infraFDs, server), i)
    requires m < |cfg.mappings| && cfg.mappings[m].source == OnlyServer(cfg.infraFDs, server)[i].name
    requires k < |cfg.mappings| && k != m
    ensures n !in Matched(cfg, sets, server, k)
  {
    var fds, sources := OnlyServer(cfg.infraFDs, server), SourcesOf(cfg.mappings);
    var found := FindByName(fds, cfg.mappings[k].source);
    if found.Some? {
      var j :| 0 <= j < |fds| && fds[j] == found.value;
      assert sources[k] != sources[m];
      assert j != i;
    }
  }

  /** A running source that passes the coverage gate is selected by exactly one mapping. */
  lemma CoveredSourceAssignedOnce(cfg: Config, sets: Cluster, recorded: seq<string>, server: string, n: string)
    requires WellFormed(cfg)
    requires n in ByVCenter(sets, server) && Desired(sets[n]) > 0 && SourceCovered(cfg, sets, recorded, server, n)
    ensures AssignedOnce(cfg, sets, server, n)
  {
    hide RecordedFamily, BaseName, FamiliesOverlap, Truncate, FullName;
    var fds, ws := OnlyServer(cfg.infraFDs, server), sets[n].provider.workspace;
    var i, m :| 0 <= i < |fds| && 0 <= m < |cfg.mappings| && MatchesOnly(ws, fds, i) && cfg.mappings[m].source == fds[i].name;
    OnlyServerDistinct(cfg.infraFDs, server);
    FindDistinct(fds, i);
    assert n in Matched(cfg, sets, server, m);
    forall k | 0 <= k < |cfg.mappings| && k != m ensures n !in Matched(cfg, sets, server, k) {
      OtherMappingDoesNotSelect(cfg, sets, server, n, i, m, k);
    }
  }

  /**
   The gate in front of scale-down is sound: once recovery and coverage both pass, every mapping's
   replacements match its sources replica for replica in total, and every running source belongs to
   exactly one mapping.
   */
  lemma GateIsSound(cfg: Config, sets: Cluster, recorded: seq<string>, names: seq<string>, server: string)
    requires WellFormed(cfg) && ValidCluster(sets)
    requires Recovers(cfg, sets, recorded, server) && CoverageHolds(cfg, sets, names, server)
    ensures GateHolds(cfg, sets, server)
  {
    forall m | 0 <= m < |cfg.mappings| ensures Covered(cfg, sets, server, m) {
      RecoveredMappingCovered(cfg, sets, recorded, server, m);
    }
    forall n | n in ByVCenter(sets, server) && Desired(sets[n]) > 0 ensures AssignedOnce(cfg, sets, server, n) {
      CoveredSourceAssignedOnce(cfg, sets, names, server, n);
    }
  }

  // ----- States, effects and runs -----

  /** Cluster, durable names, names in the current reconcile's memory, and whether the CPMS targets the destination. */
  datatype State = State(sets: Cluster, recorded: seq<string>, names: seq<string>, cpms: bool)

  datatype Effect =
    | Create(name: string, ms: MachineSet)
    | Annotate(name: string)
    | Note(name: string)
    | Publish
    | Scale(name: string)
    | Delete(name: string)
    | UpdateCPMS
    | Restart

  function Next(s: State, e: Effect): State {
    match e
    case Create(n, ms) => s.(sets := s.sets[n := ms])
    case Annotate(n) => if n in s.sets then s.(sets := s.sets[n := s.sets[n].(aggregate := true)]) else s
    case Note(n) => s.(names := s.names + [n])
    case Publish => s.(recorded := MergeNames(s.recorded, s.names))
    case Scale(n) => if n in s.sets then s.(sets := s.sets[n := s.sets[n].(replicas := Some(0))]) else s
    case Delete(n) => s.(sets := s.sets - {n})
    case UpdateCPMS => s.(cpms := true)
    case Restart => s.(names := s.recorded)
  }

  /** ms is the copy of one of mapping m's sources: same replicas, the destination's server, its own identity. */
  ghost predicate IsCopyFor(cfg: Config, sets: Cluster, m: nat, name: string, ms: MachineSet)
    requires m < |cfg.mappings|
  {
    && Destination(cfg, m).Some?
    && Owns(cfg.infraID, cfg.mappings[m].destination, name)
    && ms.provider.Placed?
    && ms.provider.workspace.server == Destination(cfg, m).value.server
    && ms.copyOf in sets
    && ms.replicas == Some(Desired(sets[ms.copyOf]))
    && !ms.aggregate
  }

  ghost predicate IsReplacement(cfg: Config, sets: Cluster, name: string) {
    exists m | 0 <= m < |cfg.mappings| :: name in Replacements(cfg, sets, m)
  }

  /** The migration has a source vCenter, and it is not a configured destination. */
  ghost predicate Sourced(cfg: Config, server: string) {
    SourceServer(cfg) == Some(server) && !IsDestination(cfg, server)
  }

  ghost predicate Enabled(cfg: Config, server: string, s: State, e: Effect) {
    match e
    case Create(n, ms) =>
      && n !in s.sets && ValidName(n)
      && exists m | 0 <= m < |cfg.mappings| :: IsCopyFor(cfg, s.sets, m, n, ms)
    case Annotate(n) => IsReplacement(cfg, s.sets, n)
    case Note(n) => n !in s.names && IsReplacement(cfg, s.sets, n)
    case Publish => true
    case Scale(n) =>
      && n in ByVCenter(s.sets, server)
      && GateHolds(cfg, s.sets, server)
      && Elements(s.names) <= Elements(s.recorded)
    case Delete(n) =>
      && n in ByVCenter(s.sets, server)
      && forall k | k in ByVCenter(s.sets, server) :: Desired(s.sets[k]) == 0
    case UpdateCPMS => true
    case Restart => true
  }

  ghost predicate Step(cfg: Config, server: string, s: State, t: State) {
    exists e :: Enabled(cfg, server, s, e) && t == Next(s, e)
  }

  ghost predicate IsRun(cfg: Config, server: string, run: seq<State>) {
    && run != []
    && forall i | 0 <= i < |run| - 1 :: Step(cfg, server, run[i], run[i + 1])
  }

  // ----- What one step keeps -----

  /** MachineSets that are not on the source vCenter keep their replicas and placement, and never disappear. */
  ghost predicate Preserved(server: string, a: Cluster, b: Cluster) {
    forall n | n in a && !OnServer(a, n, server) ::
      n in b && b[n].replicas == a[n].replicas && b[n].provider == a[n].provider
  }

  lemma ReplacementNotSource(cfg: Config, server: string, sets: Cluster, n: string)
    requires Sourced(cfg, server) && IsReplacement(cfg, sets, n)
    ensures n in sets && !OnServer(sets, n, server)
  {
  }

  lemma StepPreserves(cfg: Config, server: string, s: State, t: State)
    requires Sourced(cfg, server) && Step(cfg, server, s, t)
    ensures Preserved(server, s.sets, t.sets)
    ensures ValidCluster(s.sets) ==> ValidCluster(t.sets)
  {
    hide GateHolds, Owns, MergeNames, FindByName;
    var e :| Enabled(cfg, server, s, e) && t == Next(s, e);
    if e.Annotate? { ReplacementNotSource(cfg, server, s.sets, e.name); }
  }

  /** A mapping's replacement capacity never decreases. */
  lemma ReplacementsGrow(cfg: Config, server: string, a: Cluster, b: Cluster, m: nat)
    requires m < |cfg.mappings| && Sourced(cfg, server) && Preserved(server, a, b)
    ensures Sum(Weights(a), Replacements(cfg, a, m)) <= Sum(Weights(b), Replacements(cfg, b, m))
  {
    var r := Replacements(cfg, a, m);
    forall n | n in r ensures n in b && b[n].replicas == a[n].replicas && b[n].provider == a[n].provider {
      assert IsReplacement(cfg, a, n);
      ReplacementNotSource(cfg, server, a, n);
    }
    assert r <= Replacements(cfg, b, m);
    SumSame(Weights(a), Weights(b), r);
    SumSubset(Weights(b), r, Replacements(cfg, b, m));
  }

  // ----- The run invariant -----

  ghost predicate SourcesUntouched(server: string, a: Cluster, b: Cluster) {
    && ByVCenter(a, server) == ByVCenter(b, server)
    && forall n | n in ByVCenter(a, server) :: b[n] == a[n]
  }

  /** The initial capacity of mapping m already runs on its replacements. */
  ghost predicate PaidFor(cfg: Config, server: string, a: Cluster, b: Cluster, m: nat)
    requires m < |cfg.mappings|
  {
    Sum(Weights(a), Matched(cfg, a, server, m)) <= Sum(Weights(b), Replacements(cfg, b, m))
  }

  ghost predicate AllPaidFor(cfg: Config, server: string, a: Cluster, b: Cluster) {
    && (forall m | 0 <= m < |cfg.mappings| :: PaidFor(cfg, server, a, b, m))
    && (forall n | n in ByVCenter(a, server) && Desired(a[n]) > 0 :: AssignedOnce(cfg, a, server, n))
  }

  ghost predicate RunInvariant(cfg: Config, server: string, start: Cluster, s: State) {
    SourcesUntouched(server, start, s.sets) || AllPaidFor(cfg, server, start, s.sets)
  }

  lemma MatchedSame(cfg: Config, server: string, a: Cluster, b: Cluster, m: nat)
    requires m < |cfg.mappings| && SourcesUntouched(server, a, b)
    ensures Matched(cfg, a, server, m) == Matched(cfg, b, server, m)
    ensures Sum(Weights(a), Matched(cfg, a, server, m)) == Sum(Weights(b), Matched(cfg, b, server, m))
  {
    assert forall n | n in Matched(cfg, a, server, m) :: n in ByVCenter(a, server);
    assert forall n | n in Matched(cfg, b, server, m) :: n in ByVCenter(b, server);
    SumSame(Weights(a), Weights(b), Matched(cfg, a, server, m));
  }

  /** The first scale-down finds the gate satisfied on the untouched sources. */
  lemma GatePaysForStart(cfg: Config, server: string, start: Cluster, sets: Cluster)
    requires SourcesUntouched(server, start, sets) && GateHolds(cfg, sets, server)
    ensures AllPaidFor(cfg, server, start, sets)
  {
    forall m | 0 <= m < |cfg.mappings|
      ensures Matched(cfg, start, server, m) == Matched(cfg, sets, server, m) && PaidFor(cfg, server, start, sets, m)
    {
      MatchedSame(cfg, server, start, sets, m);
      assert Covered(cfg, sets, server, m);
    }
    forall n | n in ByVCenter(start, server) && Desired(start[n]) > 0 ensures AssignedOnce(cfg, start, server, n) {
      assert AssignedOnce(cfg, sets, server, n);
    }
  }

  lemma PaidForPersists(cfg: Config, server: string, start: Cluster, a: Cluster, b: Cluster)
    requires Sourced(cfg, server) && Preserved(server, a, b) && AllPaidFor(cfg, server, start, a)
    ensures AllPaidFor(cfg, server, start, b)
  {
    forall m | 0 <= m < |cfg.mappings| ensures PaidFor(cfg, server, start, b, m) {
      assert PaidFor(cfg, server, start, a, m);
      ReplacementsGrow(cfg, server, a, b, m);
    }
  }

  lemma UntouchedStep(cfg: Config, server: string, start: Cluster, s: State, e: Effect)
    requires Sourced(cfg, server) && Enabled(cfg, server, s, e) && !e.Scale? && !e.Delete?
    requires SourcesUntouched(server, start, s.sets)
    ensures SourcesUntouched(server, start, Next(s, e).sets)
  {
    hide GateHolds, Owns, MergeNames;
    if e.Annotate? {
      ReplacementNotSource(cfg, server, s.sets, e.name);
    } else if e.Create? {
      var m :| 0 <= m < |cfg.mappings| && IsCopyFor(cfg, s.sets, m, e.name, e.ms);
      assert !OnServer(Next(s, e).sets, e.name, server);
    }
  }

  lemma StepKeepsInvariant(cfg: Config, server: string, start: Cluster, s: State, t: State)
    requires Sourced(cfg, server) && Step(cfg, server, s, t)
    requires RunInvariant(cfg, server, start, s)
    ensures RunInvariant(cfg, server, start, t)
  {
    hide Owns, MergeNames, IsCopyFor, IsReplacement, PaidFor, AssignedOnce, Covered, Preserved;
    StepPreserves(cfg, server, s, t);
    var e :| Enabled(cfg, server, s, e) && t == Next(s, e);
    if SourcesUntouched(server, start, s.sets) {
      if e.Scale? {
        GatePaysForStart(cfg, server, start, s.sets);
      } else if e.Delete? {
        IdleSourcesPaidFor(cfg, server, start, s.sets);
      } else {
        UntouchedStep(cfg, server, start, s, e);
      }
    }
    if AllPaidFor(cfg, server, start, s.sets) {
      PaidForPersists(cfg, server, start, s.sets, t.sets);
    }
  }

  /** When every source is at zero there is nothing to pay for. */
  lemma IdleSourcesPaidFor(cfg: Config, server: string, start: Cluster, sets: Cluster)
    requires SourcesUntouched(server, start, sets)
    requires forall k | k in ByVCenter(sets, server) :: Desired(sets[k]) == 0
    ensures AllPaidFor(cfg, server, start, sets)
  {
    forall m | 0 <= m < |cfg.mappings| ensures PaidFor(cfg, server, start, sets, m) {
      var matched := Matched(cfg, start, server, m);
      assert forall n | n in matched :: n in ByVCenter(start, server);
      SumMonotone(Weights(start), map[], matched);
      EmptySum(matched);
    }
  }

  lemma {:induction false} EmptySum(s: set<string>)
    ensures Sum(map[], s) == 0
    decreases |s|
  {
    if s != {} {
      var x :| x in s;
      SumRemove(map[], s, x);
      EmptySum(s - {x});
    }
  }

  // ----- From per-mapping sums to one total -----

  ghost function ReplacementsUpTo(cfg: Config, sets: Cluster, k: nat): set<string>
    requires k <= |cfg.mappings|
  {
    if k == 0 then {} else ReplacementsUpTo(cfg, sets, k - 1) + Replacements(cfg, sets, k - 1)
  }

  ghost function AllReplacements(cfg: Config, sets: Cluster): set<string> {
    ReplacementsUpTo(cfg, sets, |cfg.mappings|)
  }

  ghost function MatchedUpTo(cfg: Config, sets: Cluster, server: string, k: nat): set<string>
    requires k <= |cfg.mappings|
  {
    if k == 0 then {} else MatchedUpTo(cfg, sets, server, k - 1) + Matched(cfg, sets, server, k - 1)
  }

  lemma ReplacementOfOne(cfg: Config, sets: Cluster, i: nat, j: nat, n: string)
    requires WellFormed(cfg) && i < j < |cfg.mappings| && n in Replacements(cfg, sets, i)
    ensures n !in Replacements(cfg, sets, j)
  {
    var a, b := cfg.mappings[i].destination, cfg.mappings[j].destination;
    assert !FamiliesOverlap(Truncate(FullName(cfg.infraID, a)), Truncate(FullName(cfg.infraID, b)));
    PreflightSeparatesOwners(cfg.infraID, a, b, n);
  }

  lemma {:induction false} ReplacementsDisjoint(cfg: Config, sets: Cluster, k: nat, m: nat)
    requires WellFormed(cfg) && k <= m < |cfg.mappings|
    ensures ReplacementsUpTo(cfg, sets, k) !! Replacements(cfg, sets, m)
  {
    hide Replacements;
    if k > 0 {
      ReplacementsDisjoint(cfg, sets, k - 1, m);
      forall n | n in Replacements(cfg, sets, k - 1) ensures n !in Replacements(cfg, sets, m) {
        ReplacementOfOne(cfg, sets, k - 1, m, n);
      }
    }
  }

  lemma {:induction false} PaidSums(cfg: Config, server: string, start: Cluster, sets: Cluster, k: nat)
    requires WellFormed(cfg) && k <= |cfg.mappings| && AllPaidFor(cfg, server, start, sets)
    ensures Sum(Weights(start), MatchedUpTo(cfg, start, server, k)) <= Sum(Weights(sets), ReplacementsUpTo(cfg, sets, k))
  {
    if k > 0 {
      PaidSums(cfg, server, start, sets, k - 1);
      assert PaidFor(cfg, server, start, sets, k - 1);
      SumUnionBound(Weights(start), MatchedUpTo(cfg, start, server, k - 1), Matched(cfg, start, server, k - 1));
      ReplacementsDisjoint(cfg, sets, k - 1, k - 1);
      SumUnion(Weights(sets), ReplacementsUpTo(cfg, sets, k - 1), Replacements(cfg, sets, k - 1));
    }
  }

  lemma {:induction false} MatchedInUnion(cfg: Config, sets: Cluster, server: string, k: nat, m: nat, n: string)
    requires m < k <= |cfg.mappings| && n in Matched(cfg, sets, server, m)
    ensures n in MatchedUpTo(cfg, sets, server, k)
  {
    hide Matched;
    if m < k - 1 {
      MatchedInUnion(cfg, sets, server, k - 1, m, n);
    }
  }

  /** Sources that no mapping selects run nothing, so the selected ones hold the whole source capacity. */
  lemma SelectedHoldAll(cfg: Config, server: string, start: Cluster)
    requires forall n | n in ByVCenter(start, server) && Desired(start[n]) > 0 :: AssignedOnce(cfg, start, server, n)
    ensures Sum(Weights(start), ByVCenter(start, server))
         <= Sum(Weights(start), MatchedUpTo(cfg, start, server, |cfg.mappings|))
  {
    var w, sources, selected := Weights(start), ByVCenter(start, server), MatchedUpTo(cfg, start, server, |cfg.mappings|);
    forall n | n in sources - selected ensures At(w, n) == 0 {
      if Desired(start[n]) > 0 {
        var m :| 0 <= m < |cfg.mappings| && n in Matched(cfg, start, server, m);
        MatchedInUnion(cfg, start, server, |cfg.mappings|, m, n);
      }
    }
    SumMonotone(w, map[], sources - selected);
    EmptySum(sources - selected);
    SumUnion(w, sources * selected, sources - selected);
    assert sources * selected + (sources - selected) == sources;
    SumSubset(w, sources * selected, selected);
  }

  lemma {:induction false} InUnionIsReplacement(cfg: Config, sets: Cluster, k: nat, n: string)
    requires k <= |cfg.mappings| && n in ReplacementsUpTo(cfg, sets, k)
    ensures IsReplacement(cfg, sets, n)
  {
    if n !in Replacements(cfg, sets, k - 1) {
      InUnionIsReplacement(cfg, sets, k - 1, n);
    }
  }

  /** Replicas still on the source vCenter plus replicas of the mapped replacements. */
  ghost function MigratedCapacity(cfg: Config, server: string, sets: Cluster): nat {
    Sum(Weights(sets), ByVCenter(sets, server)) + Sum(Weights(sets), AllReplacements(cfg, sets))
  }

  lemma InvariantKeepsCapacity(cfg: Config, server: string, start: Cluster, s: State)
    requires WellFormed(cfg) && RunInvariant(cfg, server, start, s)
    ensures MigratedCapacity(cfg, server, s.sets) >= Sum(Weights(start), ByVCenter(start, server))
  {
    if SourcesUntouched(server, start, s.sets) {
      SumSame(Weights(start), Weights(s.sets), ByVCenter(start, server));
    } else {
      SelectedHoldAll(cfg, server, start);
      PaidSums(cfg, server, start, s.sets, |cfg.mappings|);
    }
  }

  lemma {:induction false} RunKeepsInvariant(cfg: Config, server: string, run: seq<State>, k: nat)
    requires Sourced(cfg, server) && IsRun(cfg, server, run) && k < |run|
    ensures RunInvariant(cfg, server, run[0].sets, run[k])
    ensures Preserved(server, run[0].sets, run[k].sets)
  {
    hide Sourced, Step, RunInvariant, Preserved;
    if k > 0 {
      RunKeepsInvariant(cfg, server, run, k - 1);
      assert Step(cfg, server, run[k - 1], run[k - 1 + 1]);
      StepPreserves(cfg, server, run[k - 1], run[k]);
      StepKeepsInvariant(cfg, server, run[0].sets, run[k - 1], run[k]);
      PreservedTrans(server, run[0].sets, run[k - 1].sets, run[k].sets);
    } else {
      InvariantStarts(cfg, server, run[0]);
    }
  }

  lemma InvariantStarts(cfg: Config, server: string, s: State)
    ensures RunInvariant(cfg, server, s.sets, s) && Preserved(server, s.sets, s.sets)
  {
    hide AllPaidFor;
  }

  lemma PreservedTrans(server: string, a: Cluster, b: Cluster, c: Cluster)
    requires Preserved(server, a, b) && Preserved(server, b, c)
    ensures Preserved(server, a, c)
  {
  }

  /**
   Capacity is never lost. In every state of every run, however often it crashes and restarts and
   wherever scale-down or deletion is interrupted, the worker replicas left on the source vCenter plus
   those of the mapped replacements are at least the source replicas the run started with.
   */
  lemma CapacityNeverLost(cfg: Config, server: string, run: seq<State>, k: nat)
    requires WellFormed(cfg) && Sourced(cfg, server) && IsRun(cfg, server, run) && k < |run|
    ensures MigratedCapacity(cfg, server, run[k].sets) >= Sum(Weights(run[0].sets), ByVCenter(run[0].sets, server))
    ensures Sum(Weights(run[k].sets), run[k].sets.Keys) >= Sum(Weights(run[0].sets), ByVCenter(run[0].sets, server))
  {
    RunKeepsInvariant(cfg, server, run, k);
    InvariantKeepsCapacity(cfg, server, run[0].sets, run[k]);
    MigratedWithinTotal(cfg, server, run[k].sets);
  }

  /** Sources and replacements do not overlap, so their capacity is part of the cluster's total. */
  lemma MigratedWithinTotal(cfg: Config, server: string, sets: Cluster)
    requires Sourced(cfg, server)
    ensures MigratedCapacity(cfg, server, sets) <= Sum(Weights(sets), sets.Keys)
  {
    var w, sources, all := Weights(sets), ByVCenter(sets, server), AllReplacements(cfg, sets);
    forall n | n in all ensures n in sets && n !in sources {
      InUnionIsReplacement(cfg, sets, |cfg.mappings|, n);
      ReplacementNotSource(cfg, server, sets, n);
    }
    SumUnion(w, sources, all);
    SumSubset(w, sources + all, sets.Keys);
  }

  /**
   Nothing outside the source vCenter is scaled down, moved or deleted: between any two states of a
   run, a MachineSet on a destination server, or on any other one, keeps its replicas and placement.
   */
  lemma {:induction false} OnlySourcesShrink(cfg: Config, server: string, run: seq<State>, i: nat, k: nat, n: string)
    requires Sourced(cfg, server) && IsRun(cfg, server, run) && i <= k < |run|
    requires n in run[i].sets && !OnServer(run[i].sets, n, server)
    ensures n in run[k].sets
    ensures run[k].sets[n].replicas == run[i].sets[n].replicas && run[k].sets[n].provider == run[i].sets[n].provider
    decreases k
  {
    hide Enabled, Next;
    if i < k {
      OnlySourcesShrink(cfg, server, run, i, k - 1, n);
      assert Step(cfg, server, run[k - 1], run[k - 1 + 1]);
      StepPreserves(cfg, server, run[k - 1], run[k]);
    }
  }

  /** Scaling a source down keeps the gate, so one check covers the whole scale-down loop. */
  lemma GateSurvivesScale(cfg: Config, server: string, s: State, n: string)
    requires Sourced(cfg, server) && Enabled(cfg, server, s, Scale(n))
    ensures GateHolds(cfg, Next(s, Scale(n)).sets, server)
  {
    hide Owns, IsCopyFor, MergeNames, Sum, Replacements, FindByName, OnlyServer;
    var a, b := s.sets, Next(s, Scale(n)).sets;
    assert Step(cfg, server, s, Next(s, Scale(n)));
    StepPreserves(cfg, server, s, Next(s, Scale(n)));
    forall m | 0 <= m < |cfg.mappings|
      ensures Matched(cfg, b, server, m) == Matched(cfg, a, server, m) && Covered(cfg, b, server, m)
    {
      assert Matched(cfg, b, server, m) == Matched(cfg, a, server, m);
      SumMonotone(Weights(b), Weights(a), Matched(cfg, a, server, m));
      assert Covered(cfg, a, server, m);
      ReplacementsGrow(cfg, server, a, b, m);
    }
    forall k | k in ByVCenter(b, server) && Desired(b[k]) > 0 ensures AssignedOnce(cfg, b, server, k) {
      assert AssignedOnce(cfg, a, server, k);
    }
  }
}
