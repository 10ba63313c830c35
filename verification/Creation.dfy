/**
 Creating the missing destination MachineSets: the plan made before anything is created, and what the
 creation loop has established after each copy.
 */
module Creation {
  import opened FailureDomains
  import opened Names
  import opened Sums
  import opened MachineSets
  import opened Capacity
  import opened Progress
  import opened Agreement
  import opened Records
  import opened Decisions

  /** One mapped destination's resolved creation inputs. */
  datatype PlanEntry = PlanEntry(mapping: nat, sources: seq<string>, names: set<string>)

  ghost predicate EntryFor(cfg: Config, sets: Cluster, names: seq<string>, server: string, p: PlanEntry) {
    && p.mapping < |cfg.mappings| && Destination(cfg, p.mapping).Some?
    && p.sources == MatchedSources(cfg, sets, server, p.mapping) && p.sources != []
    && Plan(cfg, sets, names, server, p.mapping).Ok?
    && p.names == Plan(cfg, sets, names, server, p.mapping).value.names
  }

  /** Mapping m has no sources left, and every name recorded for it still exists. */
  ghost predicate Finished(cfg: Config, sets: Cluster, names: seq<string>, server: string, m: nat)
    requires m < |cfg.mappings|
  {
    && Destination(cfg, m).Some?
    && MatchedSources(cfg, sets, server, m) == []
    && forall n | n in RecordedFamily(names, MappingBase(cfg, sets, names, m)) :: n in sets
  }

  /** Mapping m can be planned: it is finished, or its destination names can be resolved. */
  ghost predicate Plannable(cfg: Config, sets: Cluster, names: seq<string>, server: string, m: nat)
    requires m < |cfg.mappings|
  {
    && Destination(cfg, m).Some?
    && (if MatchedSources(cfg, sets, server, m) == [] then Finished(cfg, sets, names, server, m)
        else Plan(cfg, sets, names, server, m).Ok?)
  }

  /** The entries plan exactly the mappings below k that are not finished, in order. */
  ghost predicate PlansUpTo(cfg: Config, sets: Cluster, names: seq<string>, server: string, plans: seq<PlanEntry>, k: nat)
    requires k <= |cfg.mappings|
  {
    && (forall p | p in plans :: EntryFor(cfg, sets, names, server, p) && p.mapping < k)
    && (forall i, j | 0 <= i < j < |plans| :: plans[i].mapping < plans[j].mapping)
    && forall m | 0 <= m < k :: Finished(cfg, sets, names, server, m) || exists p | p in plans :: p.mapping == m
  }

  /** What one mapping would record. */
  ghost function PlannedNames(cfg: Config, sets: Cluster, names: seq<string>, server: string, m: nat): set<string>
    requires m < |cfg.mappings|
  {
    if Destination(cfg, m).Some? && MatchedSources(cfg, sets, server, m) != [] && Plan(cfg, sets, names, server, m).Ok?
    then Plan(cfg, sets, names, server, m).value.names
    else {}
  }

  /** The recorded names plus every name the first k mappings would record. */
  ghost function PlannedUnion(cfg: Config, sets: Cluster, names: seq<string>, server: string, k: nat): set<string>
    requires k <= |cfg.mappings|
  {
    if k == 0 then Elements(names)
    else PlannedUnion(cfg, sets, names, server, k - 1) + PlannedNames(cfg, sets, names, server, k - 1)
  }

  lemma {:induction false} InPlannedUnion(cfg: Config, sets: Cluster, names: seq<string>, server: string, k: nat, n: string)
    requires k <= |cfg.mappings|
    requires n in names || exists m | 0 <= m < k :: n in PlannedNames(cfg, sets, names, server, m)
    ensures n in PlannedUnion(cfg, sets, names, server, k)
  {
    hide PlannedNames;
    if k > 0 && n !in PlannedNames(cfg, sets, names, server, k - 1) {
      InPlannedUnion(cfg, sets, names, server, k - 1, n);
    }
  }

  // ----- The plan -----

  datatype PlanStep = Skip | Enter(entry: PlanEntry) | Stop

  /** Resolves one mapping: finished, to be created, or blocked. */
  method PlanMapping(cfg: Config, sets: Cluster, names: seq<string>, server: string, m: nat) returns (r: PlanStep)
    requires SharedSource(cfg, server) && m < |cfg.mappings|
    ensures r.Stop? <==> !Plannable(cfg, sets, names, server, m)
    ensures
      var base, sources := MappingBase(cfg, sets, names, m), MatchedSources(cfg, sets, server, m);
      r.Stop? <==>
        || Destination(cfg, m).None?
        || (sources == [] && exists n | n in names && InFamily(n, base) :: n !in sets)
        || (sources != [] && Expected(sets, base, sources, Destination(cfg, m).value.server, names).Refused?)
    ensures r.Skip? <==> Finished(cfg, sets, names, server, m)
    ensures r.Skip? ==> PlannedNames(cfg, sets, names, server, m) == {}
    ensures r.Enter? ==>
              && EntryFor(cfg, sets, names, server, r.entry) && r.entry.mapping == m
              && r.entry.names == PlannedNames(cfg, sets, names, server, m)
  {
    hide SharedSource, MappingBase, Matched, Expected, ByFailureDomain;
    var dest, source := Destination(cfg, m), FindByName(cfg.infraFDs, cfg.mappings[m].source);
    SourcesAgree(cfg, sets, server, m);
    if dest.None? || source.None? {
      return Stop;
    }
    var base := MappingBase(cfg, sets, names, m);
    var sources := SortNames(ByFailureDomain(sets, source.value.server, source.value));
    if sources == [] {
      var recorded := RecordedFamily(names, base);
      for i := 0 to |recorded|
        invariant forall k | 0 <= k < i :: recorded[k] in sets
      {
        if recorded[i] !in sets {
          assert recorded[i] in recorded;
          return Stop;
        }
      }
      return Skip;
    }
    var expected := ExpectedDestinationNames(sets, base, sources, dest.value.server, names);
    if expected.Refused? {
      return Stop;
    }
    return Enter(PlanEntry(m, sources, expected.value.names));
  }

  /** Plans the whole mapping up front; a plan that would record more names than the status holds is refused. */
  method PlanWorkers(cfg: Config, sets: Cluster, names: seq<string>, server: string) returns (r: Option<seq<PlanEntry>>)
    requires SharedSource(cfg, server)
    ensures r.Some? ==> PlansUpTo(cfg, sets, names, server, r.value, |cfg.mappings|)
    ensures r.Some? <==>
              && (forall m | 0 <= m < |cfg.mappings| :: Plannable(cfg, sets, names, server, m))
              && |PlannedUnion(cfg, sets, names, server, |cfg.mappings|)| <= MAX_RECORDED
  {
    hide EntryFor, Finished, Plannable, PlannedNames, SharedSource, MappingBase, MatchedSources, Expected, InFamily;
    var plans: seq<PlanEntry> := [];
    var union := Elements(names);
    for m := 0 to |cfg.mappings|
      invariant PlansUpTo(cfg, sets, names, server, plans, m)
      invariant forall k | 0 <= k < m :: Plannable(cfg, sets, names, server, k)
      invariant union == PlannedUnion(cfg, sets, names, server, m)
    {
      var step := PlanMapping(cfg, sets, names, server, m);
      match step {
        case Stop =>
          return None;
        case Skip =>
        case Enter(p) =>
          ghost var before := plans;
          plans := plans + [p];
          union := union + p.names;
          assert forall q | q in before :: q in plans;
          assert p in plans;
      }
    }
    if |union| > MAX_RECORDED {
      return None;
    }
    return Some(plans);
  }

  // ----- The creation loop -----

  /** What creation has done so far: only planned copies, recorded once each, where they belong, and none back at zero. */
  ghost predicate Creating(cfg: Config, server: string, sets0: Cluster, names0: seq<string>, sets: Cluster, names: seq<string>) {
    && OnlyPlannedAdded(cfg, sets0, names0, server, sets, names)
    && Distinct(names)
    && (forall n | n in names && n !in names0 :: PlacedWithBase(cfg, sets0, names0, sets, names, n))
    && forall n | n in sets && n !in sets0 && n in names0 :: Desired(sets[n]) > 0
  }

  lemma CreatingStarts(cfg: Config, server: string, sets: Cluster, names: seq<string>)
    requires ValidCluster(sets) && Distinct(names)
    ensures Creating(cfg, server, sets, names, sets, names)
  {
  }

  lemma EntryPlanned(cfg: Config, sets: Cluster, names: seq<string>, server: string, p: PlanEntry, i: nat)
    requires WellFormed(cfg) && ValidCluster(sets) && EntryFor(cfg, sets, names, server, p) && i < |p.sources|
    ensures
      var n := CopyName(MappingBase(cfg, sets, names, p.mapping), i);
      && (n in p.names ==> Planned(cfg, sets, names, server, p.mapping, i, n))
      && ValidName(n) && Owns(cfg.infraID, cfg.mappings[p.mapping].destination, n)
      && InFamily(n, MappingBase(cfg, sets, names, p.mapping))
    ensures p.sources[i] in ByVCenter(sets, server)
  {
    hide Expected, MappingBase, FullName, Truncate, MatchedSources;
    var base, n := MappingBase(cfg, sets, names, p.mapping), CopyName(MappingBase(cfg, sets, names, p.mapping), i);
    CopyInFamily(base, i);
    FamilyOwned(cfg, sets, names, p.mapping, n);
    BaseIsName(cfg, sets, names, p.mapping);
    MatchedAreSources(cfg, sets, server, p.mapping, i);
  }

  /** The source of a planned copy is unchanged since the plan was made. */
  lemma SourceOfCopy(cfg: Config, server: string, sets0: Cluster, names0: seq<string>, sets: Cluster, names: seq<string>, p: PlanEntry, i: nat)
    requires WellFormed(cfg) && ValidCluster(sets0) && EntryFor(cfg, sets0, names0, server, p) && i < |p.sources|
    requires Creating(cfg, server, sets0, names0, sets, names)
    ensures p.sources[i] in sets && p.sources[i] in sets0 && sets[p.sources[i]] == sets0[p.sources[i]]
    ensures At(Weights(sets0), p.sources[i]) == Desired(sets[p.sources[i]])
  {
    hide MappingBase, Plan, PlacedWithBase, CopiesSource, Planned, ValidCluster;
    MatchedAreSources(cfg, sets0, server, p.mapping, i);
  }

  lemma NewCopyFits(cfg: Config, server: string, sets0: Cluster, names0: seq<string>, sets: Cluster, p: PlanEntry, i: nat, name: string, ms: MachineSet)
    requires EntryFor(cfg, sets0, names0, server, p) && i < |p.sources|
    requires Owns(cfg.infraID, cfg.mappings[p.mapping].destination, name)
    requires p.sources[i] in sets && At(Weights(sets0), p.sources[i]) == Desired(sets[p.sources[i]])
    requires ms.replicas == Some(Desired(sets[p.sources[i]])) && ms.copyOf == p.sources[i] && !ms.aggregate
    requires ms.provider == Placed(WorkspaceOf(Destination(cfg, p.mapping).value))
    ensures CopiesSource(cfg, sets0, server, p.mapping, i, ms) && IsCopyFor(cfg, sets, p.mapping, name, ms)
  {
    hide MappingBase, Plan, MatchedSources, Owns, Weights;
  }

  /**
   ms under the name n is what creation makes of one source: as many replicas, one if the source names none,
   in the destination's datacenter and pool on the destination's server, and marked with the source's name.
   */
  ghost predicate NewCopy(cfg: Config, sets: Cluster, names: seq<string>, server: string, n: string, ms: MachineSet) {
    exists m, i | 0 <= m < |cfg.mappings| && 0 <= i < |MatchedSources(cfg, sets, server, m)| && Destination(cfg, m).Some? ::
      && n == CopyName(MappingBase(cfg, sets, names, m), i)
      && var fd, source := Destination(cfg, m).value, MatchedSources(cfg, sets, server, m)[i];
      && source in sets
      && ms.replicas == (if sets[source].replicas.None? then Some(1) else sets[source].replicas)
      && ms == MachineSet(ms.replicas, Placed(Workspace(fd.server, fd.datacenter, fd.resourcePool)), source, false)
  }

  /** Creation leaves every existing MachineSet alone, adds exact copies only, and never brings a recorded one back empty. */
  lemma CreationAddsCopies(cfg: Config, server: string, sets0: Cluster, names0: seq<string>, sets: Cluster, names: seq<string>)
    requires Creating(cfg, server, sets0, names0, sets, names)
    ensures forall n | n in sets0 :: n in sets && sets[n] == sets0[n]
    ensures forall n | n in sets && n !in sets0 :: NewCopy(cfg, sets0, names0, server, n, sets[n])
    ensures forall n | n in sets && n !in sets0 && n in names0 :: sets[n].replicas != Some(0)
  {
    hide PlacedWithBase, MappingBase, MatchedSources, Plan, CopyName;
    forall n | n in sets && n !in sets0 ensures NewCopy(cfg, sets0, names0, server, n, sets[n]) {
      var m, i :| Planned(cfg, sets0, names0, server, m, i, n) && CopiesSource(cfg, sets0, server, m, i, sets[n]);
      MatchedAreSources(cfg, sets0, server, m, i);
    }
  }

  lemma NotRecreatedEmpty(cfg: Config, server: string, sets0: Cluster, names0: seq<string>, sets: Cluster, names: seq<string>, n: string, ms: MachineSet)
    requires Creating(cfg, server, sets0, names0, sets, names) && (n in names ==> Desired(ms) > 0)
    ensures n in names0 ==> Desired(ms) > 0
  {
    hide Planned, CopiesSource, PlacedWithBase, ValidName;
  }

  lemma PlacedIsReplacement(cfg: Config, sets: Cluster, m: nat, name: string)
    requires m < |cfg.mappings| && Destination(cfg, m).Some? && OnServer(sets, name, Destination(cfg, m).value.server)
    requires Owns(cfg.infraID, cfg.mappings[m].destination, name)
    ensures IsReplacement(cfg, sets, name)
  {
    hide Owns;
    assert name in Replacements(cfg, sets, m);
  }

  /** The base recomputed from an entry's planned names is the resolved one, and it is planned itself. */
  lemma EntryBase(cfg: Config, sets: Cluster, names: seq<string>, server: string, p: PlanEntry, planned: seq<string>)
    requires NoSuffixCut(cfg) && ValidCluster(sets) && EntryFor(cfg, sets, names, server, p) && Elements(planned) == p.names
    ensures MappingBase(cfg, sets, names, p.mapping) in p.names
    ensures BaseName(cfg.infraID, cfg.mappings[p.mapping].destination, planned) == MappingBase(cfg, sets, names, p.mapping)
  {
    hide Expected, MappingBase, MatchedSources, NoSuffixCut, BaseName;
    var base, dest := MappingBase(cfg, sets, names, p.mapping), Destination(cfg, p.mapping).value.server;
    SourcesNeedBase(sets, base, p.sources, dest, names);
    forall n | n in planned ensures InFamily(n, base) {
      assert n in Elements(planned);
      ExpectedInFamily(sets, base, p.sources, dest, names, n);
    }
    assert base in Elements(planned);
    CreationBaseAgrees(cfg, sets, names, planned, p.mapping);
  }

  lemma MatchedAreSources(cfg: Config, sets: Cluster, server: string, m: nat, i: nat)
    requires m < |cfg.mappings| && i < |MatchedSources(cfg, sets, server, m)|
    ensures MatchedSources(cfg, sets, server, m)[i] in ByVCenter(sets, server)
  {
    assert MatchedSources(cfg, sets, server, m)[i] in Elements(MatchedSources(cfg, sets, server, m));
  }

  lemma BaseIsName(cfg: Config, sets: Cluster, names: seq<string>, m: nat)
    requires WellFormed(cfg) && ValidCluster(sets) && m < |cfg.mappings|
    ensures ValidName(MappingBase(cfg, sets, names, m))
  {
    ResolveBaseOwned(cfg.infraID, cfg.mappings[m].destination, names, sets);
    FullNameShape(cfg.infraID, cfg.mappings[m].destination);
  }

  lemma PlacedGrows(cfg: Config, sets0: Cluster, names0: seq<string>, a: Cluster, names: seq<string>, b: Cluster, names': seq<string>, n: string)
    requires PlacedWithBase(cfg, sets0, names0, a, names, n)
    requires (forall x | x in a :: x in b && b[x] == a[x]) && (forall x | x in names :: x in names')
    ensures PlacedWithBase(cfg, sets0, names0, b, names', n)
  {
    hide MappingBase, InFamily;
    var m :| 0 <= m < |cfg.mappings| && InFamily(n, MappingBase(cfg, sets0, names0, m))
             && Destination(cfg, m).Some? && OnServer(a, n, Destination(cfg, m).value.server)
             && MappingBase(cfg, sets0, names0, m) in names;
  }

  /** One more planned copy, exactly as large as its source. */
  lemma CreatingCreates(cfg: Config, server: string, sets0: Cluster, names0: seq<string>, sets: Cluster, names: seq<string>, m: nat, i: nat, n: string, ms: MachineSet)
    requires Creating(cfg, server, sets0, names0, sets, names)
    requires Planned(cfg, sets0, names0, server, m, i, n) && CopiesSource(cfg, sets0, server, m, i, ms)
    requires n !in sets && ValidName(n) && (n in names0 ==> Desired(ms) > 0)
    ensures Creating(cfg, server, sets0, names0, sets[n := ms], names)
  {
    hide MappingBase, MatchedSources, Plan, CopyName, CopiesSource, PlacedWithBase, ValidName;
    var sets' := sets[n := ms];
    forall x | x in sets' && x !in sets0
      ensures exists k, j :: Planned(cfg, sets0, names0, server, k, j, x) && CopiesSource(cfg, sets0, server, k, j, sets'[x])
    {
      if x != n {
        assert x in sets;
      }
    }
    forall x | x in names && x !in names0 ensures PlacedWithBase(cfg, sets0, names0, sets', names, x) {
      PlacedGrows(cfg, sets0, names0, sets, names, sets', names, x);
    }
  }

  lemma NotedPlaced(cfg: Config, sets0: Cluster, names0: seq<string>, sets: Cluster, names: seq<string>, m: nat, n: string)
    requires m < |cfg.mappings| && Destination(cfg, m).Some? && OnServer(sets, n, Destination(cfg, m).value.server)
    requires InFamily(n, MappingBase(cfg, sets0, names0, m))
    requires MappingBase(cfg, sets0, names0, m) == n || MappingBase(cfg, sets0, names0, m) in names
    ensures PlacedWithBase(cfg, sets0, names0, sets, names + [n], n)
  {
    hide MappingBase, InFamily;
  }

  lemma FirstCopyIsBase(cfg: Config, sets: Cluster, names: seq<string>, server: string, m: nat, i: nat, n: string)
    requires Planned(cfg, sets, names, server, m, i, n)
    ensures i == 0 ==> n == MappingBase(cfg, sets, names, m)
  {
    hide MappingBase, MatchedSources, Plan;
  }

  /** One more name, recorded only after its MachineSet is known to exist, the base first. */
  lemma CreatingNotes(cfg: Config, server: string, sets0: Cluster, names0: seq<string>, sets: Cluster, names: seq<string>, m: nat, i: nat, n: string)
    requires Creating(cfg, server, sets0, names0, sets, names) && n !in names
    requires Planned(cfg, sets0, names0, server, m, i, n) && OnServer(sets, n, Destination(cfg, m).value.server)
    requires InFamily(n, MappingBase(cfg, sets0, names0, m)) && (i > 0 ==> MappingBase(cfg, sets0, names0, m) in names)
    ensures Creating(cfg, server, sets0, names0, sets, names + [n])
  {
    hide CopiesSource, PlacedWithBase, ValidName, MappingBase, MatchedSources, Plan, CopyName, OnServer, Weights, At;
    FirstCopyIsBase(cfg, sets0, names0, server, m, i, n);
    NotedPlaced(cfg, sets0, names0, sets, names, m, n);
    forall x | x in names && x !in names0 ensures PlacedWithBase(cfg, sets0, names0, sets, names + [n], x) {
      PlacedGrows(cfg, sets0, names0, sets, names, sets, names + [n], x);
    }
  }

  /** Creation keeps the recorded names consistent at every exit, and does not touch the sources. */
  lemma CreatingConsistent(cfg: Config, server: string, sets0: Cluster, names0: seq<string>, recorded: seq<string>, sets: Cluster, names: seq<string>)
    requires Ready(cfg, server) && NoSuffixCut(cfg) && Consistent(cfg, sets0, recorded, names0)
    requires Creating(cfg, server, sets0, names0, sets, names)
    ensures Consistent(cfg, sets, recorded, names)
    ensures SourcesUntouched(server, sets0, sets)
  {
    hide PlacedWithBase, MappingBase, NoSuffixCut, WellFormed, RecordsSound, SharedSource, Planned;
    PlannedGrows(cfg, sets0, names0, server, sets, names);
    ConsistentGrows(cfg, sets0, recorded, names0, sets, names);
    NewNotOnSource(cfg, server, sets0, names0, sets, names);
  }

  lemma NewNotOnSource(cfg: Config, server: string, sets0: Cluster, names0: seq<string>, sets: Cluster, names: seq<string>)
    requires Sourced(cfg, server) && OnlyPlannedAdded(cfg, sets0, names0, server, sets, names)
    ensures SourcesUntouched(server, sets0, sets)
  {
    hide MatchedSources, MappingBase, Plan;
    forall n | n in sets && n !in sets0 ensures !OnServer(sets, n, server) {
      var k, i :| Planned(cfg, sets0, names0, server, k, i, n) && CopiesSource(cfg, sets0, server, k, i, sets[n]);
      assert IsDestination(cfg, Destination(cfg, k).value.server);
    }
  }

  lemma PlannedIsNamed(cfg: Config, sets: Cluster, names: seq<string>, server: string, m: nat, i: nat, n: string)
    requires Planned(cfg, sets, names, server, m, i, n)
    ensures m < |cfg.mappings| && n in PlannedNames(cfg, sets, names, server, m)
  {
    hide MappingBase, MatchedSources, Plan, CopyName;
  }

  /** Every recorded name is an old one or a planned one, so the bound on the plan bounds the record. */
  lemma CreatingBounded(cfg: Config, server: string, sets0: Cluster, names0: seq<string>, sets: Cluster, names: seq<string>)
    requires Creating(cfg, server, sets0, names0, sets, names)
    ensures Elements(names) <= PlannedUnion(cfg, sets0, names0, server, |cfg.mappings|)
    ensures |names| <= |PlannedUnion(cfg, sets0, names0, server, |cfg.mappings|)|
  {
    hide PlannedUnion, PlannedNames, Planned, PlacedWithBase, CopiesSource, Elements;
    forall n | n in names ensures n in PlannedUnion(cfg, sets0, names0, server, |cfg.mappings|) {
      if n !in names0 {
        var m, i :| Planned(cfg, sets0, names0, server, m, i, n);
        PlannedIsNamed(cfg, sets0, names0, server, m, i, n);
      }
      InPlannedUnion(cfg, sets0, names0, server, |cfg.mappings|, n);
    }
    ElementsIn(names, PlannedUnion(cfg, sets0, names0, server, |cfg.mappings|));
  }

  lemma ElementsIn(names: seq<string>, s: set<string>)
    requires Distinct(names) && forall n | n in names :: n in s
    ensures Elements(names) <= s && |names| <= |s|
  {
    DistinctCount(names);
    SubsetCard(Elements(names), s);
  }

  /** A copy of the source stands where it should, and is recorded. */
  ghost predicate CopyDone(sets0: Cluster, sets: Cluster, names: seq<string>, name: string, source: string, dest: string) {
    CopyAccepted(sets0, sets, name, source, dest) && name in names
  }

  /** The first k copies of an entry stand where and for whom they should, and are recorded. */
  ghost predicate EntryDone(cfg: Config, sets0: Cluster, names0: seq<string>, sets: Cluster, names: seq<string>, p: PlanEntry, k: nat) {
    && p.mapping < |cfg.mappings| && Destination(cfg, p.mapping).Some? && k <= |p.sources|
    && forall i | 0 <= i < k && CopyName(MappingBase(cfg, sets0, names0, p.mapping), i) in p.names ::
         CopyDone(sets0, sets, names, CopyName(MappingBase(cfg, sets0, names0, p.mapping), i), p.sources[i], Destination(cfg, p.mapping).value.server)
  }

  lemma EntryDoneGrows(cfg: Config, sets0: Cluster, names0: seq<string>, a: Cluster, names: seq<string>, b: Cluster, names': seq<string>, p: PlanEntry, k: nat)
    requires EntryDone(cfg, sets0, names0, a, names, p, k) && names <= names' && forall x | x in a :: x in b && b[x] == a[x]
    ensures EntryDone(cfg, sets0, names0, b, names', p, k)
  {
    hide MappingBase, CopyName;
    forall i | 0 <= i < k && CopyName(MappingBase(cfg, sets0, names0, p.mapping), i) in p.names
      ensures CopyDone(sets0, b, names', CopyName(MappingBase(cfg, sets0, names0, p.mapping), i), p.sources[i], Destination(cfg, p.mapping).value.server)
    {
      assert CopyDone(sets0, a, names, CopyName(MappingBase(cfg, sets0, names0, p.mapping), i), p.sources[i], Destination(cfg, p.mapping).value.server);
    }
  }

  lemma EntryDoneNext(cfg: Config, sets0: Cluster, names0: seq<string>, sets: Cluster, names: seq<string>, p: PlanEntry, k: nat)
    requires EntryDone(cfg, sets0, names0, sets, names, p, k) && k < |p.sources|
    requires
      var name := CopyName(MappingBase(cfg, sets0, names0, p.mapping), k);
      name in p.names ==> CopyDone(sets0, sets, names, name, p.sources[k], Destination(cfg, p.mapping).value.server)
    ensures EntryDone(cfg, sets0, names0, sets, names, p, k + 1)
  {
    hide MappingBase, CopyName, CopyDone;
  }

  lemma EntryDoneNone(cfg: Config, sets0: Cluster, names0: seq<string>, server: string, sets: Cluster, names: seq<string>, p: PlanEntry)
    requires EntryFor(cfg, sets0, names0, server, p)
    ensures EntryDone(cfg, sets0, names0, sets, names, p, 0)
  {
  }

  lemma PlanCreated(cfg: Config, server: string, sets0: Cluster, names0: seq<string>, sets: Cluster, names: seq<string>, plans: seq<PlanEntry>, m: nat)
    requires m < |cfg.mappings| && PlansUpTo(cfg, sets0, names0, server, plans, |cfg.mappings|)
    requires forall p | p in plans :: EntryDone(cfg, sets0, names0, sets, names, p, |p.sources|) && forall n | n in p.names :: n in sets
    ensures MappingCreated(cfg, sets0, names0, server, sets, m) && MappingNoted(cfg, sets0, names0, server, names, m)
  {
    hide MappingBase, CopyName, MatchedSources, Plan, CopyAccepted;
    if !Finished(cfg, sets0, names0, server, m) {
      var p :| p in plans && p.mapping == m;
      assert EntryFor(cfg, sets0, names0, server, p) && EntryDone(cfg, sets0, names0, sets, names, p, |p.sources|);
    }
  }

  /** A creation that went through its whole plan is accepted by the next Step 1 exactly if the records agree. */
  lemma CreationAccepted(cfg: Config, server: string, sets0: Cluster, names0: seq<string>, sets: Cluster, names: seq<string>, plans: seq<PlanEntry>)
    requires Ready(cfg, server) && NoSuffixCut(cfg) && ValidCluster(sets0) && RecordsPlaced(cfg, sets0, names0)
    requires Creating(cfg, server, sets0, names0, sets, names)
    requires PlansUpTo(cfg, sets0, names0, server, plans, |cfg.mappings|)
    requires forall p | p in plans :: EntryDone(cfg, sets0, names0, sets, names, p, |p.sources|) && forall n | n in p.names :: n in sets
    ensures Accepts(cfg, sets, names) <==> RecordsAgree(cfg, sets0, names0, server)
  {
    hide OnlyPlannedAdded, PlacedWithBase, Ready, NoSuffixCut, RecordsPlaced, MappingCreated, MappingNoted, EntryDone, PlansUpTo, Accepts, RecordsAgree;
    forall m | 0 <= m < |cfg.mappings|
      ensures MappingCreated(cfg, sets0, names0, server, sets, m) && MappingNoted(cfg, sets0, names0, server, names, m)
    {
      PlanCreated(cfg, server, sets0, names0, sets, names, plans, m);
    }
    CreationIsAccepted(cfg, server, sets0, names0, sets, names);
  }
}
