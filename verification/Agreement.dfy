/**
 Creation, the existence check and name recovery all go through the expected destination names. Here
 they are shown to agree: a successful creation is accepted by the next Step 1, and an accepted Step 1
 makes recovery succeed, so the three cannot requeue each other forever.
 */
module Agreement {
  import opened FailureDomains
  import opened Names
  import opened Sums
  import opened MachineSets
  import opened Capacity
  import opened Progress

  /** Mapping m's recorded names exist on its destination server. */
  ghost predicate RecordPlaced(cfg: Config, sets: Cluster, names: seq<string>, m: nat)
    requires m < |cfg.mappings|
  {
    && Destination(cfg, m).Some?
    && forall n | n in RecordedFamily(names, MappingBase(cfg, sets, names, m)) :: OnServer(sets, n, Destination(cfg, m).value.server)
  }

  ghost predicate RecordsPlaced(cfg: Config, sets: Cluster, names: seq<string>) {
    forall m | 0 <= m < |cfg.mappings| :: RecordPlaced(cfg, sets, names, m)
  }

  /** Names are recorded for mapping m, but not its base. */
  ghost predicate Baseless(cfg: Config, sets: Cluster, names: seq<string>, m: nat)
    requires m < |cfg.mappings|
  {
    var base := MappingBase(cfg, sets, names, m);
    RecordedFamily(names, base) != [] && base !in names
  }

  /** The records the operator itself keeps: placed, and with their base. */
  ghost predicate RecordSound(cfg: Config, sets: Cluster, names: seq<string>, m: nat)
    requires m < |cfg.mappings|
  {
    RecordPlaced(cfg, sets, names, m) && !Baseless(cfg, sets, names, m)
  }

  ghost predicate RecordsSound(cfg: Config, sets: Cluster, names: seq<string>) {
    forall m | 0 <= m < |cfg.mappings| :: RecordSound(cfg, sets, names, m)
  }

  // ----- Names added by one mapping do not disturb another -----

  /** n belongs to the family that some mapping resolves to. */
  ghost predicate InSomeFamily(cfg: Config, sets: Cluster, names: seq<string>, n: string) {
    exists k | 0 <= k < |cfg.mappings| :: InFamily(n, MappingBase(cfg, sets, names, k))
  }

  lemma FamilyOwned(cfg: Config, sets: Cluster, names: seq<string>, m: nat, n: string)
    requires ValidCluster(sets) && m < |cfg.mappings| && InFamily(n, MappingBase(cfg, sets, names, m))
    ensures Owns(cfg.infraID, cfg.mappings[m].destination, n)
  {
    ResolveBaseOwned(cfg.infraID, cfg.mappings[m].destination, names, sets);
  }

  lemma OwnersApart(cfg: Config, i: nat, j: nat, n: string)
    requires WellFormed(cfg) && i < |cfg.mappings| && j < |cfg.mappings| && i != j
    requires Owns(cfg.infraID, cfg.mappings[i].destination, n)
    ensures !Owns(cfg.infraID, cfg.mappings[j].destination, n)
  {
    var a, b := cfg.mappings[i].destination, cfg.mappings[j].destination;
    if i < j {
      assert !FamiliesOverlap(Truncate(FullName(cfg.infraID, a)), Truncate(FullName(cfg.infraID, b)));
    } else {
      assert !FamiliesOverlap(Truncate(FullName(cfg.infraID, b)), Truncate(FullName(cfg.infraID, a)));
    }
    PreflightSeparatesOwners(cfg.infraID, a, b, n);
  }

  /** A generated name that mapping m may use was generated for mapping m. */
  lemma GeneratedForOwner(cfg: Config, sets: Cluster, names: seq<string>, m: nat, n: string)
    requires WellFormed(cfg) && ValidCluster(sets) && m < |cfg.mappings|
    requires InSomeFamily(cfg, sets, names, n) && Owns(cfg.infraID, cfg.mappings[m].destination, n)
    ensures InFamily(n, MappingBase(cfg, sets, names, m))
  {
    var k :| 0 <= k < |cfg.mappings| && InFamily(n, MappingBase(cfg, sets, names, k));
    FamilyOwned(cfg, sets, names, k, n);
    if k != m {
      OwnersApart(cfg, k, m, n);
    }
  }

  /** The full and the truncated family of a mapping do not meet when they differ. */
  lemma CutFamiliesApart(cfg: Config, m: nat, n: string)
    requires NoSuffixCut(cfg) && m < |cfg.mappings|
    requires
      var full := FullName(cfg.infraID, cfg.mappings[m].destination);
      full != Truncate(full) && InFamily(n, full)
    ensures !InFamily(n, Truncate(FullName(cfg.infraID, cfg.mappings[m].destination)))
  {
    var full := FullName(cfg.infraID, cfg.mappings[m].destination);
    assert !IsSuffixed(full, Truncate(full));
    FamiliesMeetIffOverlap(full, Truncate(full));
  }

  /** b grows a by generated names only. */
  ghost predicate GrownBy(cfg: Config, sets: Cluster, names: seq<string>, sets': Cluster, names': seq<string>) {
    && ValidCluster(sets')
    && (forall n | n in sets :: n in sets')
    && (forall n | n in names :: n in names')
    && (forall n | n in sets' && n !in sets :: InSomeFamily(cfg, sets, names, n))
    && (forall n | n in names' && n !in names :: InSomeFamily(cfg, sets, names, n))
  }

  lemma FullStaysUnused(cfg: Config, sets: Cluster, names: seq<string>, sets': Cluster, names': seq<string>, m: nat)
    requires WellFormed(cfg) && NoSuffixCut(cfg) && ValidCluster(sets) && m < |cfg.mappings|
    requires GrownBy(cfg, sets, names, sets', names')
    requires
      var full := FullName(cfg.infraID, cfg.mappings[m].destination);
      MappingBase(cfg, sets, names, m) == Truncate(full) != full
    ensures FullName(cfg.infraID, cfg.mappings[m].destination) !in names'
    ensures FullName(cfg.infraID, cfg.mappings[m].destination) in sets' ==> FullName(cfg.infraID, cfg.mappings[m].destination) in sets
  {
    var full := FullName(cfg.infraID, cfg.mappings[m].destination);
    CutFamiliesApart(cfg, m, full);
    if (full in names' && full !in names) || (full in sets' && full !in sets) {
      GeneratedForOwner(cfg, sets, names, m, full);
    }
  }

  lemma CutFamilyStaysEmpty(cfg: Config, sets: Cluster, names: seq<string>, sets': Cluster, names': seq<string>, m: nat)
    requires WellFormed(cfg) && NoSuffixCut(cfg) && ValidCluster(sets) && m < |cfg.mappings|
    requires GrownBy(cfg, sets, names, sets', names')
    requires
      var full := FullName(cfg.infraID, cfg.mappings[m].destination);
      full != Truncate(full) && MappingBase(cfg, sets, names, m) == full && RecordedFamily(names, Truncate(full)) == []
    ensures RecordedFamily(names', Truncate(FullName(cfg.infraID, cfg.mappings[m].destination))) == []
  {
    var full := FullName(cfg.infraID, cfg.mappings[m].destination);
    var family := RecordedFamily(names', Truncate(full));
    if family != [] {
      var n := family[0];
      assert n in family;
      assert n in names ==> n in RecordedFamily(names, Truncate(full));
      GeneratedForOwner(cfg, sets, names, m, n);
      CutFamiliesApart(cfg, m, n);
    }
  }

  lemma RecordedFamilyGrows(names: seq<string>, names': seq<string>, base: string)
    requires forall n | n in names :: n in names'
    ensures RecordedFamily(names, base) != [] ==> RecordedFamily(names', base) != []
  {
    var family := RecordedFamily(names, base);
    if family != [] {
      assert family[0] in family;
      assert family[0] in RecordedFamily(names', base);
    }
  }

  /** Growing the cluster and the recorded names by generated names keeps every resolved base. */
  lemma BaseStable(cfg: Config, sets: Cluster, names: seq<string>, sets': Cluster, names': seq<string>, m: nat)
    requires WellFormed(cfg) && NoSuffixCut(cfg) && ValidCluster(sets) && m < |cfg.mappings|
    requires GrownBy(cfg, sets, names, sets', names')
    ensures MappingBase(cfg, sets', names', m) == MappingBase(cfg, sets, names, m)
  {
    var fd := cfg.mappings[m].destination;
    var full, cut, legacy := FullName(cfg.infraID, fd), Truncate(FullName(cfg.infraID, fd)), LegacyName(cfg.infraID, fd);
    ResolveBaseOwned(cfg.infraID, fd, names, sets);
    ResolveBaseOwned(cfg.infraID, fd, names', sets');
    RecordedFamilyGrows(names, names', cut);
    if full != cut && full !in names {
      if MappingBase(cfg, sets, names, m) == cut {
        FullStaysUnused(cfg, sets, names, sets', names', m);
      } else {
        CutFamilyStaysEmpty(cfg, sets, names, sets', names', m);
      }
    }
  }

  /** The creation loop recomputes the base from the planned names and gets the resolved one back. */
  lemma CreationBaseAgrees(cfg: Config, sets: Cluster, names: seq<string>, planned: seq<string>, m: nat)
    requires NoSuffixCut(cfg) && ValidCluster(sets) && m < |cfg.mappings|
    requires MappingBase(cfg, sets, names, m) in planned
    requires forall n | n in planned :: InFamily(n, MappingBase(cfg, sets, names, m))
    ensures BaseName(cfg.infraID, cfg.mappings[m].destination, planned) == MappingBase(cfg, sets, names, m)
  {
    var fd := cfg.mappings[m].destination;
    var full := FullName(cfg.infraID, fd);
    ResolveBaseOwned(cfg.infraID, fd, names, sets);
    if MappingBase(cfg, sets, names, m) != full {
      CutFamiliesApart(cfg, m, full);
    }
  }

  // ----- What a successful creation leaves -----

  ghost function Plan(cfg: Config, sets: Cluster, names: seq<string>, server: string, m: nat): Verdict<Expectation>
    requires m < |cfg.mappings| && Destination(cfg, m).Some?
  {
    Expected(sets, MappingBase(cfg, sets, names, m), MatchedSources(cfg, sets, server, m), Destination(cfg, m).value.server, names)
  }

  /** n is the planned copy of mapping m's i-th source. */
  ghost predicate Planned(cfg: Config, sets: Cluster, names: seq<string>, server: string, m: nat, i: nat, n: string) {
    && m < |cfg.mappings| && Destination(cfg, m).Some?
    && i < |MatchedSources(cfg, sets, server, m)|
    && n == CopyName(MappingBase(cfg, sets, names, m), i)
    && Plan(cfg, sets, names, server, m).Ok? && n in Plan(cfg, sets, names, server, m).value.names
  }

  /** The workspace of a failure domain, as a new copy gets it. */
  function WorkspaceOf(fd: FailureDomain): Workspace {
    Workspace(fd.server, fd.datacenter, fd.resourcePool)
  }

  /** ms copies mapping m's i-th source: its replicas exactly, its name as identity, the destination's workspace. */
  ghost predicate CopiesSource(cfg: Config, sets: Cluster, server: string, m: nat, i: nat, ms: MachineSet)
    requires m < |cfg.mappings| && Destination(cfg, m).Some? && i < |MatchedSources(cfg, sets, server, m)|
  {
    var source := MatchedSources(cfg, sets, server, m)[i];
    && ms.replicas == Some(At(Weights(sets), source))
    && ms.provider == Placed(WorkspaceOf(Destination(cfg, m).value))
    && ms.copyOf == source && !ms.aggregate
  }

  /** Mapping m is finished: every planned name exists, and the copies stand where and for whom they should. */
  ghost predicate MappingCreated(cfg: Config, sets: Cluster, names: seq<string>, server: string, sets': Cluster, m: nat)
    requires m < |cfg.mappings|
  {
    var base, sources := MappingBase(cfg, sets, names, m), MatchedSources(cfg, sets, server, m);
    && Destination(cfg, m).Some?
    && (sources == [] ==> forall n | n in RecordedFamily(names, base) :: n in sets)
    && (sources != [] ==>
          && Plan(cfg, sets, names, server, m).Ok?
          && (forall n | n in Plan(cfg, sets, names, server, m).value.names :: n in sets')
          && (forall i | 0 <= i < |sources| && CopyName(base, i) in Plan(cfg, sets, names, server, m).value.names ::
                CopyAccepted(sets, sets', CopyName(base, i), sources[i], Destination(cfg, m).value.server)))
  }

  ghost predicate CopyAccepted(sets: Cluster, sets': Cluster, name: string, source: string, dest: string) {
    && OnServer(sets', name, dest)
    && (At(Weights(sets), source) > 0 && sets'[name].copyOf != "" ==> sets'[name].copyOf == source)
  }

  /** Existing MachineSets are untouched, and only planned copies are added and recorded. */
  ghost predicate OnlyPlannedAdded(cfg: Config, sets: Cluster, names: seq<string>, server: string, sets': Cluster, names': seq<string>) {
    && ValidCluster(sets')
    && names <= names'
    && (forall n | n in sets :: n in sets' && sets'[n] == sets[n])
    && (forall n | n in sets' && n !in sets ::
          exists m, i :: Planned(cfg, sets, names, server, m, i, n) && CopiesSource(cfg, sets, server, m, i, sets'[n]))
    && (forall n | n in names' && n !in names :: exists m, i :: Planned(cfg, sets, names, server, m, i, n))
  }

  ghost predicate Created(cfg: Config, sets: Cluster, names: seq<string>, server: string, sets': Cluster, names': seq<string>) {
    && OnlyPlannedAdded(cfg, sets, names, server, sets', names')
    && forall m | 0 <= m < |cfg.mappings| ::
         MappingCreated(cfg, sets, names, server, sets', m) && MappingNoted(cfg, sets, names, server, names', m)
  }

  lemma PlannedInFamily(cfg: Config, sets: Cluster, names: seq<string>, server: string, n: string)
    requires exists m, i :: Planned(cfg, sets, names, server, m, i, n)
    ensures InSomeFamily(cfg, sets, names, n)
  {
    var m, i :| Planned(cfg, sets, names, server, m, i, n);
    CopyInFamily(MappingBase(cfg, sets, names, m), i);
  }

  lemma PlannedGrows(cfg: Config, sets: Cluster, names: seq<string>, server: string, sets': Cluster, names': seq<string>)
    requires OnlyPlannedAdded(cfg, sets, names, server, sets', names')
    ensures GrownBy(cfg, sets, names, sets', names')
  {
    forall n | n in sets' && n !in sets ensures InSomeFamily(cfg, sets, names, n) {
      var m, i :| Planned(cfg, sets, names, server, m, i, n);
      PlannedInFamily(cfg, sets, names, server, n);
    }
    forall n | n in names' && n !in names ensures InSomeFamily(cfg, sets, names, n) {
      PlannedInFamily(cfg, sets, names, server, n);
    }
  }

  /** A name generated for some mapping and lying in mapping m's family was planned for mapping m. */
  lemma PlannedForOwner(cfg: Config, sets: Cluster, names: seq<string>, server: string, m: nat, n: string) returns (i: nat)
    requires WellFormed(cfg) && ValidCluster(sets) && m < |cfg.mappings|
    requires InFamily(n, MappingBase(cfg, sets, names, m))
    requires exists k, j :: Planned(cfg, sets, names, server, k, j, n)
    ensures Planned(cfg, sets, names, server, m, i, n)
  {
    var k, j :| Planned(cfg, sets, names, server, k, j, n);
    CopyInFamily(MappingBase(cfg, sets, names, k), j);
    FamilyOwned(cfg, sets, names, k, n);
    FamilyOwned(cfg, sets, names, m, n);
    if k != m {
      OwnersApart(cfg, k, m, n);
    }
    i := j;
  }

  lemma PlannedSourceWeights(cfg: Config, server: string, sets: Cluster, names: seq<string>, sets': Cluster, names': seq<string>, m: nat)
    requires Sourced(cfg, server) && m < |cfg.mappings|
    requires OnlyPlannedAdded(cfg, sets, names, server, sets', names')
    ensures MatchedSources(cfg, sets', server, m) == MatchedSources(cfg, sets, server, m)
    ensures forall n | n in sets :: At(Weights(sets'), n) == At(Weights(sets), n)
    ensures forall n | n in MatchedSources(cfg, sets, server, m) :: n in sets
  {
    forall n | n in sets' && n !in sets ensures !OnServer(sets', n, server) {
      var k, i :| Planned(cfg, sets, names, server, k, i, n) && CopiesSource(cfg, sets, server, k, i, sets'[n]);
      assert IsDestination(cfg, Destination(cfg, k).value.server);
    }
    assert Matched(cfg, sets', server, m) == Matched(cfg, sets, server, m);
    forall n | n in MatchedSources(cfg, sets, server, m) ensures n in sets {
      assert n in Elements(MatchedSources(cfg, sets, server, m));
    }
  }

  // ----- Creation is accepted by the next Step 1 -----

  lemma {:induction false} RecordedFamilyPrefix(names: seq<string>, names': seq<string>, base: string)
    requires names <= names'
    ensures RecordedFamily(names, base) <= RecordedFamily(names', base)
    decreases |names'|
  {
    if names != names' {
      RecordedFamilyPrefix(names, names'[..|names'| - 1], base);
    }
  }

  lemma {:induction false} RecordedFamilyDistinct(names: seq<string>, base: string)
    requires Distinct(names)
    ensures Distinct(RecordedFamily(names, base))
    decreases |names|
  {
    if names != [] {
      var front, last := names[..|names| - 1], names[|names| - 1];
      RecordedFamilyDistinct(front, base);
      assert last !in front;
      assert last !in RecordedFamily(front, base);
    }
  }

  lemma SingletonFamily(names: seq<string>, base: string)
    requires Distinct(names) && forall n | n in RecordedFamily(names, base) :: n == base
    ensures |RecordedFamily(names, base)| <= 1
  {
    var family := RecordedFamily(names, base);
    RecordedFamilyDistinct(names, base);
    DistinctCount(family);
    SubsetCard(Elements(family), {base});
  }

  lemma ClassifyStable(sets: Cluster, sets': Cluster, base: string, sources: seq<string>, dest: string, names: seq<string>, names': seq<string>)
    requires forall n | n in sets :: n in sets' && sets'[n] == sets[n]
    requires ListSum(Weights(sets'), sources) == ListSum(Weights(sets), sources)
    requires names <= names'
    requires Expected(sets, base, sources, dest, names).Ok?
    requires base !in sets && base in sets' ==> OnServer(sets', base, dest) && !sets'[base].aggregate && sets'[base].copyOf != ""
    requires Classify(sets, base, sources, dest, names) == Ok(Aggregate) && !sets[base].aggregate ==>
               && |RecordedFamily(names', base)| <= 1
               && forall i | 1 <= i < |sources| :: CopyName(base, i) !in sets'
    ensures Classify(sets', base, sources, dest, names') == Classify(sets, base, sources, dest, names)
  {
    RecordedFamilyPrefix(names, names', base);
  }

  lemma NewlyRecorded(cfg: Config, server: string, sets: Cluster, names: seq<string>, sets': Cluster, names': seq<string>, m: nat, n: string)
    requires WellFormed(cfg) && ValidCluster(sets) && m < |cfg.mappings| && Destination(cfg, m).Some?
    requires OnlyPlannedAdded(cfg, sets, names, server, sets', names')
    requires n in RecordedFamily(names', MappingBase(cfg, sets, names, m)) && n !in names
    ensures MatchedSources(cfg, sets, server, m) != []
    ensures Plan(cfg, sets, names, server, m).Ok? && n in Plan(cfg, sets, names, server, m).value.names
    ensures n in CopyNames(MappingBase(cfg, sets, names, m), |MatchedSources(cfg, sets, server, m)|)
  {
    var i := PlannedForOwner(cfg, sets, names, server, m, n);
  }

  lemma BaseOnlyFamily(names: seq<string>, base: string)
    requires |RecordedFamily(names, base)| <= 1 && (RecordedFamily(names, base) != [] ==> base in names)
    ensures forall n | n in RecordedFamily(names, base) :: n == base
  {
    var family := RecordedFamily(names, base);
    if family != [] {
      assert base in family;
      assert family == [family[0]];
    }
  }

  /** A new MachineSet in mapping m's family is the planned copy of one of mapping m's sources. */
  lemma NewCopyForOwner(cfg: Config, server: string, sets: Cluster, names: seq<string>, sets': Cluster, names': seq<string>, m: nat, n: string) returns (i: nat)
    requires WellFormed(cfg) && ValidCluster(sets) && m < |cfg.mappings|
    requires OnlyPlannedAdded(cfg, sets, names, server, sets', names')
    requires n in sets' && n !in sets && InFamily(n, MappingBase(cfg, sets, names, m))
    ensures Planned(cfg, sets, names, server, m, i, n) && CopiesSource(cfg, sets, server, m, i, sets'[n])
  {
    var k, j :| Planned(cfg, sets, names, server, k, j, n) && CopiesSource(cfg, sets, server, k, j, sets'[n]);
    CopyInFamily(MappingBase(cfg, sets, names, k), j);
    SameOwner(cfg, sets, names, k, m, n);
    i := j;
  }

  lemma SameOwner(cfg: Config, sets: Cluster, names: seq<string>, k: nat, m: nat, n: string)
    requires WellFormed(cfg) && ValidCluster(sets) && k < |cfg.mappings| && m < |cfg.mappings|
    requires InFamily(n, MappingBase(cfg, sets, names, k)) && InFamily(n, MappingBase(cfg, sets, names, m))
    ensures k == m
  {
    FamilyOwned(cfg, sets, names, k, n);
    FamilyOwned(cfg, sets, names, m, n);
    if k != m {
      OwnersApart(cfg, k, m, n);
    }
  }

  ghost predicate FallbackAggregate(cfg: Config, sets: Cluster, names: seq<string>, server: string, m: nat)
    requires m < |cfg.mappings| && Destination(cfg, m).Some?
  {
    var base, sources := MappingBase(cfg, sets, names, m), MatchedSources(cfg, sets, server, m);
    && Classify(sets, base, sources, Destination(cfg, m).value.server, names) == Ok(Aggregate)
    && !sets[base].aggregate
  }

  /**
   Creation and Step 1 disagree on mapping m. Names are recorded for it without its base, and the base is
   either an aggregate known only by its replica count, which creation's own note then turns into one copy
   among several, or, with no sources left, a MachineSet whose provider spec cannot be read.
   */
  ghost predicate Disagrees(cfg: Config, sets: Cluster, names: seq<string>, server: string, m: nat)
    requires m < |cfg.mappings| && Destination(cfg, m).Some?
  {
    var base := MappingBase(cfg, sets, names, m);
    && Baseless(cfg, sets, names, m)
    && (if MatchedSources(cfg, sets, server, m) == [] then base in sets && sets[base].provider.Unreadable?
        else FallbackAggregate(cfg, sets, names, server, m))
  }

  /** A plan for an aggregate known by its replica count: what is recorded and the base, and no copies yet. */
  lemma FallbackPlan(cfg: Config, sets: Cluster, names: seq<string>, server: string, m: nat)
    requires m < |cfg.mappings| && Destination(cfg, m).Some? && FallbackAggregate(cfg, sets, names, server, m)
    ensures Plan(cfg, sets, names, server, m).Ok?
    ensures Plan(cfg, sets, names, server, m).value.names
         == Elements(RecordedFamily(names, MappingBase(cfg, sets, names, m))) + {MappingBase(cfg, sets, names, m)}
    ensures |RecordedFamily(names, MappingBase(cfg, sets, names, m))| <= 1 && |MatchedSources(cfg, sets, server, m)| >= 2
    ensures OnServer(sets, MappingBase(cfg, sets, names, m), Destination(cfg, m).value.server)
    ensures forall i | 1 <= i < |MatchedSources(cfg, sets, server, m)| :: CopyName(MappingBase(cfg, sets, names, m), i) !in sets
  {
    hide MatchedSources, MappingBase, CopyName;
  }

  /** Such an aggregate gets at most its own base recorded, if what was recorded includes it. */
  lemma FallbackFamilyStaysSmall(cfg: Config, server: string, sets: Cluster, names: seq<string>, sets': Cluster, names': seq<string>, m: nat)
    requires WellFormed(cfg) && ValidCluster(sets) && m < |cfg.mappings| && Distinct(names') && Destination(cfg, m).Some?
    requires !Baseless(cfg, sets, names, m) && OnlyPlannedAdded(cfg, sets, names, server, sets', names')
    requires FallbackAggregate(cfg, sets, names, server, m)
    ensures |RecordedFamily(names', MappingBase(cfg, sets, names, m))| <= 1
  {
    hide MappingBase, FallbackAggregate, OnlyPlannedAdded, Plan, MatchedSources, CopyName, WellFormed;
    var base := MappingBase(cfg, sets, names, m);
    FallbackPlan(cfg, sets, names, server, m);
    BaseOnlyFamily(names, base);
    assert names <= names' by { PlannedPrefix(cfg, sets, names, server, sets', names'); }
    forall n | n in RecordedFamily(names', base) ensures n == base {
      if n in names {
        assert n in RecordedFamily(names, base);
      } else {
        NewlyRecorded(cfg, server, sets, names, sets', names', m, n);
      }
    }
    SingletonFamily(names', base);
  }

  lemma PlannedPrefix(cfg: Config, sets: Cluster, names: seq<string>, server: string, sets': Cluster, names': seq<string>)
    requires OnlyPlannedAdded(cfg, sets, names, server, sets', names')
    ensures names <= names'
  {
  }

  /** Such an aggregate gets no copies next to it. */
  lemma FallbackGetsNoCopies(cfg: Config, server: string, sets: Cluster, names: seq<string>, sets': Cluster, names': seq<string>, m: nat, i: nat)
    requires WellFormed(cfg) && ValidCluster(sets) && m < |cfg.mappings|
    requires RecordPlaced(cfg, sets, names, m) && OnlyPlannedAdded(cfg, sets, names, server, sets', names')
    requires FallbackAggregate(cfg, sets, names, server, m) && 1 <= i < |MatchedSources(cfg, sets, server, m)|
    ensures CopyName(MappingBase(cfg, sets, names, m), i) !in sets'
  {
    hide MappingBase, FallbackAggregate, OnlyPlannedAdded, MatchedSources, CopyName, WellFormed, Expected;
    var base := MappingBase(cfg, sets, names, m);
    var n := CopyName(base, i);
    FallbackPlan(cfg, sets, names, server, m);
    CopyInFamily(base, i);
    SuffixIsNotBase(base, i);
    assert forall x | x in RecordedFamily(names, base) :: OnServer(sets, x, Destination(cfg, m).value.server);
    if n in sets' {
      var j := NewCopyForOwner(cfg, server, sets, names, sets', names', m, n);
    }
  }

  lemma SuffixIsNotBase(base: string, i: nat)
    requires i > 0
    ensures CopyName(base, i) != base
  {
  }

  lemma CreatedBase(cfg: Config, server: string, sets: Cluster, names: seq<string>, sets': Cluster, names': seq<string>, m: nat)
    requires WellFormed(cfg) && ValidCluster(sets) && m < |cfg.mappings| && Destination(cfg, m).Some?
    requires OnlyPlannedAdded(cfg, sets, names, server, sets', names')
    requires MappingBase(cfg, sets, names, m) !in sets && MappingBase(cfg, sets, names, m) in sets'
    ensures OnServer(sets', MappingBase(cfg, sets, names, m), Destination(cfg, m).value.server)
    ensures !sets'[MappingBase(cfg, sets, names, m)].aggregate && sets'[MappingBase(cfg, sets, names, m)].copyOf != ""
  {
    var sources := MatchedSources(cfg, sets, server, m);
    var i := NewCopyForOwner(cfg, server, sets, names, sets', names', m, MappingBase(cfg, sets, names, m));
    assert sources[i] in Elements(sources);
    assert ValidName(sources[i]);
  }

  lemma {:induction false} ListSumEqual(v: map<string, nat>, w: map<string, nat>, s: seq<string>)
    requires forall n | n in s :: At(v, n) == At(w, n)
    ensures ListSum(v, s) == ListSum(w, s)
  {
    ListSumSame(v, w, s);
    ListSumSame(w, v, s);
  }

  /** What creation recorded does not turn an aggregate known by its replica count into copies. */
  ghost predicate LayoutKept(cfg: Config, sets: Cluster, names: seq<string>, server: string, names': seq<string>, m: nat)
    requires m < |cfg.mappings| && Destination(cfg, m).Some?
  {
    FallbackAggregate(cfg, sets, names, server, m) ==> |RecordedFamily(names', MappingBase(cfg, sets, names, m))| <= 1
  }

  lemma CreatedClassify(cfg: Config, server: string, sets: Cluster, names: seq<string>, sets': Cluster, names': seq<string>, m: nat)
    requires Ready(cfg, server) && ValidCluster(sets) && m < |cfg.mappings| && Distinct(names')
    requires RecordPlaced(cfg, sets, names, m) && OnlyPlannedAdded(cfg, sets, names, server, sets', names')
    requires Plan(cfg, sets, names, server, m).Ok? && LayoutKept(cfg, sets, names, server, names', m)
    ensures
      var base, sources, dest := MappingBase(cfg, sets, names, m), MatchedSources(cfg, sets, server, m), Destination(cfg, m).value.server;
      Classify(sets', base, sources, dest, names') == Classify(sets, base, sources, dest, names)
  {
    var base, sources, dest := MappingBase(cfg, sets, names, m), MatchedSources(cfg, sets, server, m), Destination(cfg, m).value.server;
    PlannedSourceWeights(cfg, server, sets, names, sets', names', m);
    ListSumEqual(Weights(sets'), Weights(sets), sources);
    if base !in sets && base in sets' {
      CreatedBase(cfg, server, sets, names, sets', names', m);
    }
    if FallbackAggregate(cfg, sets, names, server, m) {
      forall i | 1 <= i < |sources| ensures CopyName(base, i) !in sets' {
        FallbackGetsNoCopies(cfg, server, sets, names, sets', names', m, i);
      }
    }
    ClassifyStable(sets, sets', base, sources, dest, names, names');
  }

  lemma SourceWeightKept(cfg: Config, server: string, sets: Cluster, names: seq<string>, sets': Cluster, names': seq<string>, m: nat, i: nat)
    requires Sourced(cfg, server) && m < |cfg.mappings| && i < |MatchedSources(cfg, sets, server, m)|
    requires OnlyPlannedAdded(cfg, sets, names, server, sets', names')
    ensures At(Weights(sets'), MatchedSources(cfg, sets, server, m)[i]) == At(Weights(sets), MatchedSources(cfg, sets, server, m)[i])
  {
    PlannedSourceWeights(cfg, server, sets, names, sets', names', m);
    assert MatchedSources(cfg, sets, server, m)[i] in MatchedSources(cfg, sets, server, m);
  }

  lemma LargeEnoughCopy(sets: Cluster, base: string, sources: seq<string>, dest: string, i: nat)
    requires i < |sources|
    requires CopyName(base, i) in sets ==> At(Weights(sets), sources[i]) <= Desired(sets[CopyName(base, i)])
    ensures CopyProblem(sets, base, sources, dest, i).None?
  {
  }

  lemma LargeEnoughWas(sets: Cluster, base: string, sources: seq<string>, dest: string, i: nat)
    requires i < |sources| && CopyProblem(sets, base, sources, dest, i).None?
    ensures CopyName(base, i) in sets ==> At(Weights(sets), sources[i]) <= Desired(sets[CopyName(base, i)])
  {
  }

  /** A created copy is as large as its source, so the capacity check of the next Step 1 passes. */
  lemma CreatedCopyLargeEnough(cfg: Config, server: string, sets: Cluster, names: seq<string>, sets': Cluster, names': seq<string>, m: nat, i: nat)
    requires Ready(cfg, server) && ValidCluster(sets) && m < |cfg.mappings| && Destination(cfg, m).Some?
    requires OnlyPlannedAdded(cfg, sets, names, server, sets', names')
    requires i < |MatchedSources(cfg, sets, server, m)|
    requires CopyProblem(sets, MappingBase(cfg, sets, names, m), MatchedSources(cfg, sets, server, m), Destination(cfg, m).value.server, i).None?
    ensures CopyProblem(sets', MappingBase(cfg, sets, names, m), MatchedSources(cfg, sets, server, m), Destination(cfg, m).value.server, i).None?
  {
    var base, sources, dest := MappingBase(cfg, sets, names, m), MatchedSources(cfg, sets, server, m), Destination(cfg, m).value.server;
    var name := CopyName(base, i);
    SourceWeightKept(cfg, server, sets, names, sets', names', m, i);
    LargeEnoughWas(sets, base, sources, dest, i);
    if name in sets' && name !in sets {
      FreshCopyExact(cfg, server, sets, names, sets', names', m, i);
    }
    LargeEnoughCopy(sets', base, sources, dest, i);
  }

  /** Every name the next Step 1 expects was planned, and stands on the destination server. */
  lemma CreatedNamesPlaced(cfg: Config, server: string, sets: Cluster, names: seq<string>, sets': Cluster, names': seq<string>, m: nat, n: string)
    requires Ready(cfg, server) && ValidCluster(sets) && m < |cfg.mappings|
    requires RecordPlaced(cfg, sets, names, m) && OnlyPlannedAdded(cfg, sets, names, server, sets', names')
    requires MappingCreated(cfg, sets, names, server, sets', m) && MatchedSources(cfg, sets, server, m) != []
    requires n in Elements(RecordedFamily(names', MappingBase(cfg, sets, names, m))) + Plan(cfg, sets, names, server, m).value.names
    ensures OnServer(sets', n, Destination(cfg, m).value.server)
  {
    var base, sources, dest := MappingBase(cfg, sets, names, m), MatchedSources(cfg, sets, server, m), Destination(cfg, m).value.server;
    if n in RecordedFamily(names', base) && n !in names {
      NewlyRecorded(cfg, server, sets, names, sets', names', m, n);
    }
    if n in RecordedFamily(names, base) {
      assert OnServer(sets, n, dest);
    } else {
      PlannedIsCopy(sets, base, sources, dest, names, n);
      var i :| 0 <= i < |sources| && n == CopyName(base, i);
      assert CopyAccepted(sets, sets', n, sources[i], dest);
    }
  }

  /** A planned name that is not recorded is a copy name. */
  lemma PlannedIsCopy(sets: Cluster, base: string, sources: seq<string>, dest: string, names: seq<string>, n: string)
    requires sources != [] && Expected(sets, base, sources, dest, names).Ok?
    requires n in Expected(sets, base, sources, dest, names).value.names && n !in RecordedFamily(names, base)
    ensures n in CopyNames(base, |sources|)
  {
    assert CopyName(base, 0) == base;
    assert CopyName(base, 0) in CopyNames(base, |sources|);
  }

  /** The local part of acceptance after creation, free of the other mappings. */
  lemma ExpectationCarries(sets: Cluster, sets': Cluster, base: string, sources: seq<string>, dest: string, names: seq<string>, names': seq<string>)
    requires Expected(sets, base, sources, dest, names).Ok?
    requires Classify(sets', base, sources, dest, names') == Classify(sets, base, sources, dest, names)
    requires AllOnServer(sets', Elements(RecordedFamily(names', base)) + Expected(sets, base, sources, dest, names).value.names, dest)
    requires !Expected(sets, base, sources, dest, names).value.aggregate ==>
               && (forall i | 0 <= i < |sources| :: CopyProblem(sets', base, sources, dest, i).None?)
               && IdentityHolds(sets', base, sources)
    ensures ExpectationMet(sets', base, sources, dest, names')
  {
    assert Classify(sets, base, sources, dest, names) == Ok(PerSource) ==>
        FirstCopyProblem(sets', base, sources, dest, |sources|).None?;
  }

  lemma SourcesNeedBase(sets: Cluster, base: string, sources: seq<string>, dest: string, names: seq<string>)
    requires sources != [] && Expected(sets, base, sources, dest, names).Ok?
    ensures base in Expected(sets, base, sources, dest, names).value.names
  {
    hide Classify;
    assert CopyName(base, 0) == base;
    assert CopyName(base, 0) in CopyNames(base, |sources|);
  }

  lemma PerSourcePlan(sets: Cluster, base: string, sources: seq<string>, dest: string, names: seq<string>, i: nat)
    requires Expected(sets, base, sources, dest, names).Ok? && !Expected(sets, base, sources, dest, names).value.aggregate
    requires i < |sources|
    ensures CopyProblem(sets, base, sources, dest, i).None?
    ensures CopyName(base, i) in Expected(sets, base, sources, dest, names).value.names
  {
    assert CopyName(base, i) in CopyNames(base, |sources|);
  }

  lemma CreatedCopyIdentity(cfg: Config, server: string, sets: Cluster, names: seq<string>, sets': Cluster, names': seq<string>, m: nat, i: nat)
    requires Sourced(cfg, server) && m < |cfg.mappings| && i < |MatchedSources(cfg, sets, server, m)|
    requires OnlyPlannedAdded(cfg, sets, names, server, sets', names')
    requires MappingCreated(cfg, sets, names, server, sets', m)
    requires !Plan(cfg, sets, names, server, m).value.aggregate
    ensures CopyAccepted(sets', sets', CopyName(MappingBase(cfg, sets, names, m), i), MatchedSources(cfg, sets, server, m)[i], Destination(cfg, m).value.server)
  {
    var base, sources := MappingBase(cfg, sets, names, m), MatchedSources(cfg, sets, server, m);
    SourceWeightKept(cfg, server, sets, names, sets', names', m, i);
    PerSourcePlan(sets, base, sources, Destination(cfg, m).value.server, names, i);
    assert CopyAccepted(sets, sets', CopyName(base, i), sources[i], Destination(cfg, m).value.server);
  }

  lemma CreatedIdentity(cfg: Config, server: string, sets: Cluster, names: seq<string>, sets': Cluster, names': seq<string>, m: nat)
    requires Sourced(cfg, server) && m < |cfg.mappings|
    requires OnlyPlannedAdded(cfg, sets, names, server, sets', names')
    requires MappingCreated(cfg, sets, names, server, sets', m) && MatchedSources(cfg, sets, server, m) != []
    requires !Plan(cfg, sets, names, server, m).value.aggregate
    ensures IdentityHolds(sets', MappingBase(cfg, sets, names, m), MatchedSources(cfg, sets, server, m))
  {
    var base, sources, dest := MappingBase(cfg, sets, names, m), MatchedSources(cfg, sets, server, m), Destination(cfg, m).value.server;
    forall i | 0 <= i < |sources| ensures CopyAccepted(sets', sets', CopyName(base, i), sources[i], dest) {
      CreatedCopyIdentity(cfg, server, sets, names, sets', names', m, i);
    }
  }

  lemma CreatedView(cfg: Config, server: string, sets: Cluster, names: seq<string>, sets': Cluster, names': seq<string>, m: nat)
    requires Ready(cfg, server) && NoSuffixCut(cfg) && ValidCluster(sets) && m < |cfg.mappings|
    requires OnlyPlannedAdded(cfg, sets, names, server, sets', names')
    ensures MappingBase(cfg, sets', names', m) == MappingBase(cfg, sets, names, m)
    ensures MatchedSources(cfg, sets', server, m) == MatchedSources(cfg, sets, server, m)
  {
    PlannedGrows(cfg, sets, names, server, sets', names');
    BaseStable(cfg, sets, names, sets', names', m);
    PlannedSourceWeights(cfg, server, sets, names, sets', names', m);
  }

  lemma CreatedCopiesLargeEnough(cfg: Config, server: string, sets: Cluster, names: seq<string>, sets': Cluster, names': seq<string>, m: nat, i: nat)
    requires Ready(cfg, server) && ValidCluster(sets) && m < |cfg.mappings| && Destination(cfg, m).Some?
    requires OnlyPlannedAdded(cfg, sets, names, server, sets', names')
    requires Plan(cfg, sets, names, server, m).Ok? && !Plan(cfg, sets, names, server, m).value.aggregate
    requires i < |MatchedSources(cfg, sets, server, m)|
    ensures CopyProblem(sets', MappingBase(cfg, sets, names, m), MatchedSources(cfg, sets, server, m), Destination(cfg, m).value.server, i).None?
  {
    PerSourcePlan(sets, MappingBase(cfg, sets, names, m), MatchedSources(cfg, sets, server, m), Destination(cfg, m).value.server, names, i);
    CreatedCopyLargeEnough(cfg, server, sets, names, sets', names', m, i);
  }

  lemma CreatedMappingPasses(cfg: Config, server: string, sets: Cluster, names: seq<string>, sets': Cluster, names': seq<string>, m: nat)
    requires Ready(cfg, server) && NoSuffixCut(cfg) && ValidCluster(sets) && m < |cfg.mappings| && Distinct(names')
    requires RecordPlaced(cfg, sets, names, m) && OnlyPlannedAdded(cfg, sets, names, server, sets', names')
    requires MappingCreated(cfg, sets, names, server, sets', m) && MatchedSources(cfg, sets, server, m) != []
    requires LayoutKept(cfg, sets, names, server, names', m)
    ensures Passes(cfg, sets', names', server, m)
  {
    var base, sources, dest := MappingBase(cfg, sets, names, m), MatchedSources(cfg, sets, server, m), Destination(cfg, m).value.server;
    var planned := Plan(cfg, sets, names, server, m).value;
    CreatedView(cfg, server, sets, names, sets', names', m);
    CreatedClassify(cfg, server, sets, names, sets', names', m);
    forall n | n in Elements(RecordedFamily(names', base)) + planned.names ensures OnServer(sets', n, dest) {
      CreatedNamesPlaced(cfg, server, sets, names, sets', names', m, n);
    }
    if !planned.aggregate {
      forall i | 0 <= i < |sources| ensures CopyProblem(sets', base, sources, dest, i).None? {
        CreatedCopiesLargeEnough(cfg, server, sets, names, sets', names', m, i);
      }
      CreatedIdentity(cfg, server, sets, names, sets', names', m);
    }
    ExpectationCarries(sets, sets', base, sources, dest, names, names');
  }

  /** Without sources, recorded names on their server and a readable base are all that is expected. */
  lemma RecordedOnlyExpectation(sets: Cluster, base: string, dest: string, names: seq<string>)
    requires forall n | n in RecordedFamily(names, base) :: OnServer(sets, n, dest)
    ensures ExpectationMet(sets, base, [], dest, names) <==> !(base in sets && sets[base].provider.Unreadable?)
  {
    assert FirstCopyProblem(sets, base, [], dest, 0).None?;
    assert CopyNames(base, 0) == {};
  }

  /** Creation leaves a mapping without sources as it was, its base included. */
  lemma FinishedUnchanged(cfg: Config, server: string, sets: Cluster, names: seq<string>, sets': Cluster, names': seq<string>, m: nat)
    requires WellFormed(cfg) && ValidCluster(sets) && m < |cfg.mappings| && Destination(cfg, m).Some?
    requires OnlyPlannedAdded(cfg, sets, names, server, sets', names') && MatchedSources(cfg, sets, server, m) == []
    ensures
      var base := MappingBase(cfg, sets, names, m);
      && (forall n :: n in RecordedFamily(names', base) <==> n in RecordedFamily(names, base))
      && (base in sets' <==> base in sets) && (base in sets ==> sets'[base] == sets[base])
  {
    hide MappingBase, MatchedSources, Plan, CopyName, WellFormed;
    var base := MappingBase(cfg, sets, names, m);
    forall n | n in RecordedFamily(names', base) ensures n in RecordedFamily(names, base) {
      if n !in names {
        NewlyRecorded(cfg, server, sets, names, sets', names', m, n);
      }
    }
    if base in sets' && base !in sets {
      assert InFamily(base, base);
      var i := NewCopyForOwner(cfg, server, sets, names, sets', names', m, base);
    }
  }

  lemma FinishedMappingPasses(cfg: Config, server: string, sets: Cluster, names: seq<string>, sets': Cluster, names': seq<string>, m: nat)
    requires Ready(cfg, server) && NoSuffixCut(cfg) && ValidCluster(sets) && m < |cfg.mappings|
    requires RecordPlaced(cfg, sets, names, m) && OnlyPlannedAdded(cfg, sets, names, server, sets', names')
    requires MatchedSources(cfg, sets, server, m) == []
    ensures Passes(cfg, sets', names', server, m) <==> !Disagrees(cfg, sets, names, server, m)
  {
    hide MappingBase, MatchedSources, ExpectationMet, NoSuffixCut, Ready, FallbackAggregate;
    var base, dest := MappingBase(cfg, sets, names, m), Destination(cfg, m).value.server;
    CreatedView(cfg, server, sets, names, sets', names', m);
    assert WellFormed(cfg) by { ReadyIsWellFormed(cfg, server); }
    FinishedUnchanged(cfg, server, sets, names, sets', names', m);
    var family, family' := RecordedFamily(names, base), RecordedFamily(names', base);
    assert family != [] ==> family[0] in family';
    assert family' != [] ==> family'[0] in family;
    forall n | n in family' ensures OnServer(sets', n, dest) {
      assert n in family && OnServer(sets, n, dest);
    }
    assert base in names ==> base in family;
    RecordedOnlyExpectation(sets', base, dest, names');
  }

  lemma ReadyIsWellFormed(cfg: Config, server: string)
    requires Ready(cfg, server)
    ensures WellFormed(cfg) && Sourced(cfg, server)
  {
  }

  // ----- Exactly when creation is accepted -----

  /** Creation has recorded every planned copy of mapping m. */
  ghost predicate MappingNoted(cfg: Config, sets: Cluster, names: seq<string>, server: string, names': seq<string>, m: nat)
    requires m < |cfg.mappings|
  {
    var base, sources := MappingBase(cfg, sets, names, m), MatchedSources(cfg, sets, server, m);
    Destination(cfg, m).Some? && Plan(cfg, sets, names, server, m).Ok? ==>
      forall i | 0 <= i < |sources| && CopyName(base, i) in Plan(cfg, sets, names, server, m).value.names :: CopyName(base, i) in names'
  }

  lemma TwoNames(names: seq<string>, base: string, x: string, y: string)
    requires x in RecordedFamily(names, base) && y in RecordedFamily(names, base) && x != y
    ensures |RecordedFamily(names, base)| > 1
  {
  }

  /** A copy that does not exist is not met. */
  lemma MissingCopyUnmet(sets: Cluster, base: string, sources: seq<string>, dest: string, names: seq<string>, i: nat)
    requires Classify(sets, base, sources, dest, names) == Ok(PerSource) && i < |sources| && CopyName(base, i) !in sets
    ensures !ExpectationMet(sets, base, sources, dest, names)
  {
    hide Classify, CopyName;
    assert CopyName(base, i) in CopyNames(base, |sources|);
  }

  /** Recording the base next to another name of the family makes Step 1 ask for copies nobody created. */
  lemma BaselessRefused(cfg: Config, server: string, sets: Cluster, names: seq<string>, sets': Cluster, names': seq<string>, m: nat)
    requires Ready(cfg, server) && NoSuffixCut(cfg) && ValidCluster(sets) && m < |cfg.mappings|
    requires RecordPlaced(cfg, sets, names, m) && OnlyPlannedAdded(cfg, sets, names, server, sets', names')
    requires MappingNoted(cfg, sets, names, server, names', m)
    requires FallbackAggregate(cfg, sets, names, server, m) && Baseless(cfg, sets, names, m)
    ensures !Passes(cfg, sets', names', server, m)
  {
    hide MappingBase, MatchedSources, NoSuffixCut, Ready, Plan, Expected, CopyName, OnlyPlannedAdded;
    var base, sources, dest := MappingBase(cfg, sets, names, m), MatchedSources(cfg, sets, server, m), Destination(cfg, m).value.server;
    ReadyIsWellFormed(cfg, server);
    CreatedView(cfg, server, sets, names, sets', names', m);
    FallbackPlan(cfg, sets, names, server, m);
    FallbackGetsNoCopies(cfg, server, sets, names, sets', names', m, 1);
    PlannedPrefix(cfg, sets, names, server, sets', names');
    BaseIsFirstCopy(base);
    var x := RecordedFamily(names, base)[0];
    assert x in RecordedFamily(names, base);
    TwoNames(names', base, x, base);
    BaseUntouched(cfg, server, sets, names, sets', names', base);
    assert Classify(sets', base, sources, dest, names') == Ok(PerSource);
    MissingCopyUnmet(sets', base, sources, dest, names', 1);
  }

  lemma BaseIsFirstCopy(base: string)
    ensures CopyName(base, 0) == base && InFamily(base, base)
  {
  }

  lemma BaseUntouched(cfg: Config, server: string, sets: Cluster, names: seq<string>, sets': Cluster, names': seq<string>, n: string)
    requires OnlyPlannedAdded(cfg, sets, names, server, sets', names') && n in sets
    ensures n in sets' && sets'[n] == sets[n]
  {
  }

  /** Creation and Step 1 agree on mapping m exactly if its record does not make them disagree. */
  lemma CreatedMappingAgrees(cfg: Config, server: string, sets: Cluster, names: seq<string>, sets': Cluster, names': seq<string>, m: nat)
    requires Ready(cfg, server) && NoSuffixCut(cfg) && ValidCluster(sets) && Distinct(names') && m < |cfg.mappings|
    requires RecordPlaced(cfg, sets, names, m) && OnlyPlannedAdded(cfg, sets, names, server, sets', names')
    requires MappingCreated(cfg, sets, names, server, sets', m) && MappingNoted(cfg, sets, names, server, names', m)
    ensures Passes(cfg, sets', names', server, m) <==> !Disagrees(cfg, sets, names, server, m)
  {
    hide Passes, MappingCreated, MappingNoted, RecordPlaced, OnlyPlannedAdded, MappingBase, MatchedSources, NoSuffixCut, FallbackAggregate, WellFormed, Ready, Baseless;
    assert Destination(cfg, m).Some? by { PlacedHasDestination(cfg, sets, names, m); }
    ReadyIsWellFormed(cfg, server);
    if MatchedSources(cfg, sets, server, m) == [] {
      FinishedMappingPasses(cfg, server, sets, names, sets', names', m);
    } else if Disagrees(cfg, sets, names, server, m) {
      BaselessRefused(cfg, server, sets, names, sets', names', m);
    } else {
      if FallbackAggregate(cfg, sets, names, server, m) {
        FallbackFamilyStaysSmall(cfg, server, sets, names, sets', names', m);
      }
      CreatedMappingPasses(cfg, server, sets, names, sets', names', m);
    }
  }

  lemma PlacedHasDestination(cfg: Config, sets: Cluster, names: seq<string>, m: nat)
    requires m < |cfg.mappings| && RecordPlaced(cfg, sets, names, m)
    ensures Destination(cfg, m).Some?
  {
  }

  /** No mapping's record makes creation and Step 1 disagree. */
  ghost predicate RecordsAgree(cfg: Config, sets: Cluster, names: seq<string>, server: string) {
    forall m | 0 <= m < |cfg.mappings| :: Destination(cfg, m).Some? && !Disagrees(cfg, sets, names, server, m)
  }

  lemma SoundRecordsAgree(cfg: Config, sets: Cluster, names: seq<string>, server: string)
    requires RecordsSound(cfg, sets, names)
    ensures RecordsPlaced(cfg, sets, names) && RecordsAgree(cfg, sets, names, server)
  {
    hide MappingBase, MatchedSources, FallbackAggregate;
    forall m | 0 <= m < |cfg.mappings|
      ensures RecordPlaced(cfg, sets, names, m) && Destination(cfg, m).Some? && !Disagrees(cfg, sets, names, server, m)
    {
      assert RecordSound(cfg, sets, names, m);
    }
  }

  /**
   Exactly when a creation pass that succeeds is accepted. With recorded names on their destinations,
   Step 1 of the next reconcile finds every expected MachineSet in place if and only if no mapping's
   record, as it was before, made creation and Step 1 disagree; whatever mixture of fresh, partly created,
   recorded and aggregate destinations creation started from.
   */
  lemma CreationIsAccepted(cfg: Config, server: string, sets: Cluster, names: seq<string>, sets': Cluster, names': seq<string>)
    requires Ready(cfg, server) && NoSuffixCut(cfg) && ValidCluster(sets) && Distinct(names')
    requires RecordsPlaced(cfg, sets, names) && Created(cfg, sets, names, server, sets', names')
    ensures Accepts(cfg, sets', names') <==> RecordsAgree(cfg, sets, names, server)
  {
    hide Passes, MappingPasses, MappingCreated, MappingNoted, RecordPlaced, OnlyPlannedAdded, Disagrees, NoSuffixCut, Ready;
    forall m | 0 <= m < |cfg.mappings|
      ensures Destination(cfg, m).Some?
      ensures MappingPasses(cfg, sets', names', m) <==> !Disagrees(cfg, sets, names, server, m)
    {
      assert MappingCreated(cfg, sets, names, server, sets', m) && RecordPlaced(cfg, sets, names, m);
      PlacedHasDestination(cfg, sets, names, m);
      CreatedMappingAgrees(cfg, server, sets, names, sets', names', m);
      PassesIsStepOne(cfg, sets', names', server, m);
    }
  }

  /** A finished mapping whose recorded names lack a base that cannot be read. */
  ghost predicate UnreadableLeftover(cfg: Config, sets: Cluster, names: seq<string>, server: string, m: nat)
    requires m < |cfg.mappings|
  {
    var base := MappingBase(cfg, sets, names, m);
    && MatchedSources(cfg, sets, server, m) == [] && Baseless(cfg, sets, names, m)
    && base in sets && sets[base].provider.Unreadable?
  }

  /**
   The status write after a full creation may be lost. The next Step 1 then sees the created MachineSets
   with the old record, and accepts all the same; only a finished mapping with an unreadable base is refused,
   before the creation as after it.
   */
  lemma LostStatusAccepted(cfg: Config, server: string, sets: Cluster, names: seq<string>, sets': Cluster, names': seq<string>)
    requires Ready(cfg, server) && NoSuffixCut(cfg) && ValidCluster(sets) && Distinct(names)
    requires RecordsPlaced(cfg, sets, names) && Created(cfg, sets, names, server, sets', names')
    ensures Accepts(cfg, sets', names) <==>
              forall m | 0 <= m < |cfg.mappings| :: !UnreadableLeftover(cfg, sets, names, server, m)
  {
    hide Passes, MappingPasses, MappingCreated, MappingNoted, RecordPlaced, MappingBase, MatchedSources, UnreadableLeftover, NoSuffixCut, Ready, Planned, CopiesSource;
    assert OnlyPlannedAdded(cfg, sets, names, server, sets', names);
    forall m | 0 <= m < |cfg.mappings|
      ensures MappingPasses(cfg, sets', names, m) <==> !UnreadableLeftover(cfg, sets, names, server, m)
    {
      assert MappingCreated(cfg, sets, names, server, sets', m) && RecordPlaced(cfg, sets, names, m);
      LostMappingAccepted(cfg, server, sets, names, sets', m);
      PassesIsStepOne(cfg, sets', names, server, m);
    }
  }

  lemma LostMappingAccepted(cfg: Config, server: string, sets: Cluster, names: seq<string>, sets': Cluster, m: nat)
    requires Ready(cfg, server) && NoSuffixCut(cfg) && ValidCluster(sets) && Distinct(names) && m < |cfg.mappings|
    requires RecordPlaced(cfg, sets, names, m) && OnlyPlannedAdded(cfg, sets, names, server, sets', names)
    requires MappingCreated(cfg, sets, names, server, sets', m)
    ensures Passes(cfg, sets', names, server, m) <==> !UnreadableLeftover(cfg, sets, names, server, m)
  {
    hide Passes, MappingCreated, OnlyPlannedAdded, MappingBase, MatchedSources, NoSuffixCut, FallbackAggregate, Ready, Baseless;
    if MatchedSources(cfg, sets, server, m) == [] {
      FinishedMappingPasses(cfg, server, sets, names, sets', names, m);
    } else {
      if FallbackAggregate(cfg, sets, names, server, m) {
        FallbackPlan(cfg, sets, names, server, m);
      }
      CreatedMappingPasses(cfg, server, sets, names, sets', names, m);
    }
  }

  /** An accepted Step 1 makes recovery succeed: recovery requires no name that Step 1 does not. */
  lemma AcceptedRecovers(cfg: Config, server: string, sets: Cluster, names: seq<string>)
    requires Ready(cfg, server) && Accepts(cfg, sets, names)
    ensures Recovers(cfg, sets, names, server)
  {
    forall m | 0 <= m < |cfg.mappings| ensures MappingRecovers(cfg, sets, names, server, m) {
      assert MappingPasses(cfg, sets, names, m);
      PassesIsStepOne(cfg, sets, names, server, m);
    }
  }

  /**
   A fresh mapping ends up with exactly one copy per source: the i-th sorted source is copied under the
   i-th generated name, with the same replicas and its own name as identity, and nothing else exists.
   */
  lemma FreshCreationPairs(cfg: Config, server: string, sets: Cluster, names: seq<string>, sets': Cluster, names': seq<string>, m: nat)
    requires Ready(cfg, server) && ValidCluster(sets) && m < |cfg.mappings|
    requires Created(cfg, sets, names, server, sets', names')
    requires forall n | n in sets || n in names :: !Owns(cfg.infraID, cfg.mappings[m].destination, n)
    ensures Replacements(cfg, sets', m) == CopyNames(MappingBase(cfg, sets, names, m), |MatchedSources(cfg, sets, server, m)|)
    ensures forall i | 0 <= i < |MatchedSources(cfg, sets, server, m)| ::
              var n := CopyName(MappingBase(cfg, sets, names, m), i);
              n in sets' && Destination(cfg, m).Some? && CopiesSource(cfg, sets, server, m, i, sets'[n])
  {
    hide MappingBase, CopyName, Truncate, FullName, InFamily, Owns, CopiesSource, WellFormed, OnlyPlannedAdded, MatchedSources, SharedSource, Sourced;
    var base, sources := MappingBase(cfg, sets, names, m), MatchedSources(cfg, sets, server, m);
    assert MappingCreated(cfg, sets, names, server, sets', m);
    forall i | 0 <= i < |sources|
      ensures CopyName(base, i) in Replacements(cfg, sets', m)
      ensures CopiesSource(cfg, sets, server, m, i, sets'[CopyName(base, i)])
    {
      FreshCopyPresent(cfg, server, sets, names, sets', names', m, i);
    }
    forall n | n in Replacements(cfg, sets', m) ensures n in CopyNames(base, |sources|) {
      OnlyCopiesAppear(cfg, server, sets, names, sets', names', m, n);
    }
  }

  lemma FreshCopyPresent(cfg: Config, server: string, sets: Cluster, names: seq<string>, sets': Cluster, names': seq<string>, m: nat, i: nat)
    requires WellFormed(cfg) && ValidCluster(sets) && m < |cfg.mappings| && i < |MatchedSources(cfg, sets, server, m)|
    requires OnlyPlannedAdded(cfg, sets, names, server, sets', names') && MappingCreated(cfg, sets, names, server, sets', m)
    requires forall n | n in sets || n in names :: !Owns(cfg.infraID, cfg.mappings[m].destination, n)
    ensures CopyName(MappingBase(cfg, sets, names, m), i) in Replacements(cfg, sets', m)
    ensures CopiesSource(cfg, sets, server, m, i, sets'[CopyName(MappingBase(cfg, sets, names, m), i)])
  {
    hide MappingBase, CopyName, FullName, Truncate;
    var base, sources := MappingBase(cfg, sets, names, m), MatchedSources(cfg, sets, server, m);
    var n := CopyName(base, i);
    CopyInFamily(base, i);
    FamilyOwned(cfg, sets, names, m, n);
    FamilyOwned(cfg, sets, names, m, base);
    FreshIsPerSource(sets, base, sources, Destination(cfg, m).value.server, names, i);
    var j := NewCopyForOwner(cfg, server, sets, names, sets', names', m, n);
    CopyNameInjective(base, i, j);
  }

  /** A base that does not exist yet is always planned per source. */
  lemma FreshIsPerSource(sets: Cluster, base: string, sources: seq<string>, dest: string, names: seq<string>, i: nat)
    requires base !in sets && i < |sources| && Expected(sets, base, sources, dest, names).Ok?
    ensures CopyName(base, i) in Expected(sets, base, sources, dest, names).value.names
  {
    PerSourcePlan(sets, base, sources, dest, names, i);
  }

  lemma OnlyCopiesAppear(cfg: Config, server: string, sets: Cluster, names: seq<string>, sets': Cluster, names': seq<string>, m: nat, n: string)
    requires WellFormed(cfg) && ValidCluster(sets) && m < |cfg.mappings|
    requires OnlyPlannedAdded(cfg, sets, names, server, sets', names')
    requires n in sets' && n !in sets && Owns(cfg.infraID, cfg.mappings[m].destination, n)
    ensures n in CopyNames(MappingBase(cfg, sets, names, m), |MatchedSources(cfg, sets, server, m)|)
  {
    hide MappingBase, CopyName, FullName, Truncate;
    var k, j :| Planned(cfg, sets, names, server, k, j, n);
    PlannedInFamily(cfg, sets, names, server, n);
    GeneratedForOwner(cfg, sets, names, m, n);
    var i := PlannedForOwner(cfg, sets, names, server, m, n);
  }

  lemma FreshCopyExact(cfg: Config, server: string, sets: Cluster, names: seq<string>, sets': Cluster, names': seq<string>, m: nat, i: nat)
    requires WellFormed(cfg) && ValidCluster(sets) && m < |cfg.mappings| && Destination(cfg, m).Some?
    requires OnlyPlannedAdded(cfg, sets, names, server, sets', names')
    requires i < |MatchedSources(cfg, sets, server, m)|
    requires CopyName(MappingBase(cfg, sets, names, m), i) in sets' && CopyName(MappingBase(cfg, sets, names, m), i) !in sets
    ensures CopiesSource(cfg, sets, server, m, i, sets'[CopyName(MappingBase(cfg, sets, names, m), i)])
  {
    var base := MappingBase(cfg, sets, names, m);
    CopyInFamily(base, i);
    var j := NewCopyForOwner(cfg, server, sets, names, sets', names', m, CopyName(base, i));
    CopyNameInjective(base, i, j);
  }
}
