/**
 The workload reconcile as it runs: a cluster it changes through single API calls, each of which may
 fail or be the last one before a crash, a published name list and a copy of it in memory. Every call
 is one effect of a run, so what is proved about runs holds for it.
 */
module WorkerReconciler {
  import opened FailureDomains
  import opened Names
  import opened Sums
  import opened MachineSets
  import opened Capacity
  import opened Progress
  import opened Agreement
  import opened Marking
  import opened Records
  import opened StepOne
  import opened Decisions
  import opened Creation
  import opened CreationOutcome
  import opened Recovery
  import opened WorkerReadiness

  datatype Existence = AllExist | SomeMissing | Unresolved | CallFailed

  /** What the environment reports during one reconcile. */
  datatype Environment = Environment(
    reports: Reports, poolsConverged: bool, rolloutComplete: bool, oldMachinesGone: bool)

  datatype Outcome = Failed | Waiting | Progressed | Done

  class WorkerMigration {
    const cfg: Config
    const server: string
    var sets: Cluster
    var recorded: seq<string>
    var names: seq<string>
    var cpms: bool
    ghost var history: seq<State>
    /** API calls that failed, and source deletions that were accepted. */
    ghost var faults: nat
    ghost var requested: set<string>

    ghost function Now(): State
      reads this
    {
      State(sets, recorded, names, cpms)
    }

    /** The history is a run that ends in the current state. */
    ghost predicate Traced()
      reads this
    {
      IsRun(cfg, server, history) && history[|history| - 1] == Now()
    }

    ghost predicate Valid()
      reads this
    {
      && Ready(cfg, server) && NoSuffixCut(cfg)
      && Consistent(cfg, sets, recorded, names)
      && Traced()
    }

    constructor (cfg: Config, server: string, sets: Cluster, recorded: seq<string>, cpms: bool)
      requires Ready(cfg, server) && NoSuffixCut(cfg) && Consistent(cfg, sets, recorded, recorded)
      ensures Valid() && this.cfg == cfg && this.server == server
      ensures Now() == State(sets, recorded, recorded, cpms) && history == [Now()]
    {
      hide Consistent, Ready, NoSuffixCut, Step;
      this.cfg, this.server := cfg, server;
      this.sets, this.recorded, this.names, this.cpms := sets, recorded, recorded, cpms;
      this.history := [State(sets, recorded, recorded, cpms)];
      this.faults, this.requested := 0, {};
    }

    // ----- Single API effects -----

    ghost method Log(e: Effect)
      requires IsRun(cfg, server, history) && Enabled(cfg, server, history[|history| - 1], e)
      requires Now() == Next(history[|history| - 1], e)
      modifies this`history
      ensures Traced() && history == old(history) + [Now()]
    {
      hide Enabled, Next;
      assert Step(cfg, server, history[|history| - 1], Now());
      history := history + [Now()];
    }

    /** Creates the copy of one of mapping m's sources. */
    method CreateMachineSet(ghost m: nat, name: string, ms: MachineSet) returns (ok: bool)
      requires Traced() && m < |cfg.mappings| && name !in sets && ValidName(name) && IsCopyFor(cfg, sets, m, name, ms)
      modifies this`sets, this`history, this`faults
      ensures Traced() && old(history) <= history && faults == old(faults) + (if ok then 0 else 1)
      ensures sets == if ok then old(sets)[name := ms] else old(sets)
    {
      hide IsCopyFor;
      ok := *;
      if ok {
        sets := sets[name := ms];
        Log(Create(name, ms));
      } else {
        faults := faults + 1;
      }
    }

    method AnnotateAggregate(name: string) returns (ok: bool)
      requires Traced() && name in sets && IsReplacement(cfg, sets, name)
      modifies this`sets, this`history, this`faults
      ensures Traced() && old(history) <= history && faults == old(faults) + (if ok then 0 else 1)
      ensures sets == if ok then old(sets)[name := old(sets)[name].(aggregate := true)] else old(sets)
    {
      hide IsReplacement;
      if sets[name].aggregate {
        assert sets[name := sets[name].(aggregate := true)] == sets;
        return true;
      }
      ok := *;
      if ok {
        sets := sets[name := sets[name].(aggregate := true)];
        Log(Annotate(name));
      } else {
        faults := faults + 1;
      }
    }

    method NoteName(name: string)
      requires Traced() && name !in names && IsReplacement(cfg, sets, name)
      modifies this`names, this`history
      ensures Traced() && old(history) <= history
      ensures names == old(names) + [name]
    {
      hide IsReplacement;
      names := names + [name];
      Log(Note(name));
    }

    /** Publishes the names in memory; a failed status update leaves the published list as it was. */
    method PublishNames() returns (ok: bool)
      requires Valid()
      modifies this`recorded, this`history, this`faults
      ensures Valid() && old(history) <= history && faults == old(faults) + (if ok then 0 else 1)
      ensures recorded == if ok then names else old(recorded)
    {
      hide Consistent, Ready, NoSuffixCut, MergeNames, Step;
      ok := *;
      if ok {
        ConsistentPublished(cfg, sets, recorded, names);
        recorded := Merge(recorded, names);
        Log(Publish);
      } else {
        faults := faults + 1;
      }
    }

    method ScaleToZero(name: string) returns (ok: bool)
      requires Traced() && name in ByVCenter(sets, server) && GateHolds(cfg, sets, server)
      requires Elements(names) <= Elements(recorded)
      modifies this`sets, this`history, this`faults
      ensures Traced() && old(history) <= history && faults == old(faults) + (if ok then 0 else 1)
      ensures sets == if ok then old(sets)[name := old(sets)[name].(replicas := Some(0))] else old(sets)
    {
      hide GateHolds;
      ok := *;
      if ok {
        sets := sets[name := sets[name].(replicas := Some(0))];
        Log(Scale(name));
      } else {
        faults := faults + 1;
      }
    }

    /** Requests a deletion; the object may linger. */
    method DeleteMachineSet(name: string) returns (ok: bool)
      requires Traced() && name in ByVCenter(sets, server)
      requires forall n | n in ByVCenter(sets, server) :: Desired(sets[n]) == 0
      modifies this`sets, this`history, this`faults, this`requested
      ensures Traced() && old(history) <= history && faults == old(faults) + (if ok then 0 else 1)
      ensures sets == old(sets) - {name} || sets == old(sets)
      ensures requested == if ok then old(requested) + {name} else old(requested)
    {
      ok := *;
      if !ok {
        faults := faults + 1;
        return;
      }
      requested := requested + {name};
      var gone: bool := *;
      if gone {
        sets := sets - {name};
        Log(Delete(name));
      }
    }

    method UpdateControlPlane() returns (ok: bool)
      requires Traced()
      modifies this`cpms, this`history, this`faults
      ensures Traced() && old(history) <= history && faults == old(faults) + (if ok then 0 else 1)
      ensures cpms == (old(cpms) || ok)
    {
      ok := *;
      if ok {
        cpms := true;
        Log(UpdateCPMS);
      } else {
        faults := faults + 1;
      }
    }

    /** Reading the cluster may fail too. */
    method ReadCluster() returns (ok: bool)
      modifies this`faults
      ensures faults == old(faults) + (if ok then 0 else 1)
    {
      ok := *;
      if !ok {
        faults := faults + 1;
      }
    }

    /** A restart, planned or after a crash: memory is rebuilt from what was published. */
    method Begin()
      requires Valid()
      modifies this`names, this`history
      ensures Valid() && history == old(history) + [Now()]
      ensures names == recorded
    {
      hide Consistent, Ready, NoSuffixCut, Step;
      ConsistentPublished(cfg, sets, recorded, names);
      names := recorded;
      Log(Restart);
    }

    // ----- Step 1 -----

    /**
     Step 1 on mapping m. An aggregate is annotated and, if unrecorded, noted before anything is reported;
     the annotation does not change what was found.
     */
    method CheckAndMark(m: nat, known: seq<string>, ghost sets0: Cluster, ghost flagged: set<string>)
      returns (r: Existence, ghost flagged': set<string>, ghost done: nat)
      requires Ready(cfg, server) && ValidCluster(sets0) && Traced() && m < |cfg.mappings|
      requires PassUpTo(cfg, server, sets0, known, sets, names, flagged, m) && forall n | n in flagged :: n in names
      modifies this`sets, this`names, this`history, this`faults
      ensures Traced() && old(history) <= history && old(faults) <= faults
      ensures PassUpTo(cfg, server, sets0, known, sets, names, flagged', done) && forall n | n in flagged' :: n in names
      ensures r.AllExist? ==> done == m + 1 && Passes(cfg, sets0, known, server, m)
      ensures r.SomeMissing? || r.Unresolved? ==> !Passes(cfg, sets0, known, server, m)
      ensures r.Unresolved? ==> Fails(cfg, sets0, known, server, m)
      ensures r.CallFailed? ==> faults > old(faults)
    {
      hide *;
      flagged', done := flagged, m;
      BeforeCheck(cfg, server, sets0, known, sets, names, flagged, m);
      var check := CheckMapping(cfg, sets, known, m);
      AggregateDecided(cfg, server, sets, known, m, check);
      if check.aggregate {
        var base := MappingBase(cfg, sets, known, m);
        AggregateIsReplacement(cfg, sets, known, server, m);
        var ok := AnnotateAggregate(base);
        if !ok {
          r := CallFailed;
          return;
        }
        flagged' := PassMarked(cfg, server, sets0, known, old(sets), names, flagged, m);
        done := m + 1;
        if base !in names {
          NoteName(base);
          PassNoted(cfg, server, sets0, known, sets, old(names), flagged', m + 1, base);
        }
      } else {
        PassUnmarked(cfg, server, sets0, known, sets, names, flagged, m);
        done := m + 1;
      }
      r := match check.finding case Passed => AllExist case Missing => SomeMissing case Broken => Unresolved;
    }

    /** Step 1: checks every mapping in order, marking and noting the aggregates it accepts. */
    method TargetMachineSetsExist() returns (r: Existence)
      requires Valid()
      modifies this`sets, this`names, this`history, this`faults
      ensures Valid() && old(history) <= history && old(faults) <= faults
      ensures ByVCenter(sets, server) == ByVCenter(old(sets), server) && Weights(sets) == Weights(old(sets))
      ensures r.AllExist? ==> Settled(cfg, sets, names, server) && Accepts(cfg, old(sets), old(names))
      ensures r.SomeMissing? || r.Unresolved? ==> !Accepts(cfg, old(sets), old(names))
      ensures r.Unresolved? ==> exists m | 0 <= m < |cfg.mappings| :: Fails(cfg, old(sets), old(names), server, m)
      ensures r.AllExist? ==>
                Recovers(cfg, old(sets), old(names), server) && forall m, i :: !SwappedCopy(cfg, old(sets), old(names), server, m, i)
      ensures r.SomeMissing? || r.Unresolved? ==>
                Recovers(cfg, old(sets), old(names), server) ==> exists m, i :: SwappedCopy(cfg, old(sets), old(names), server, m, i)
      ensures OnlyMarked(old(sets), old(names), sets, names)
      ensures r.AllExist? ==> forall m | 0 <= m < |cfg.mappings| && AggregateAt(cfg, old(sets), old(names), server, m) ::
                var base := MappingBase(cfg, old(sets), old(names), m);
                base in names && base in sets && sets[base].aggregate
      ensures r.CallFailed? ==> faults > old(faults)
    {
      hide Consistent, Ready, NoSuffixCut, Passes, Fails, Settled, Accepts, ByVCenter, Weights, Step, PassUpTo, Recovers, SwappedCopy, OnlyMarked, AggregateAt, MappingBase;
      ReadyOnly(this);
      StepOneIsIdentity(cfg, sets, names, server);
      ghost var flagged: set<string> := {};
      var known := names;
      PassStarts(cfg, server, sets, recorded, names);
      for m := 0 to |cfg.mappings|
        invariant Traced() && old(history) <= history && old(faults) <= faults
        invariant PassUpTo(cfg, server, old(sets), known, sets, names, flagged, m) && forall n | n in flagged :: n in names
        invariant forall k | 0 <= k < m :: Passes(cfg, old(sets), known, server, k)
      {
        ghost var done;
        r, flagged, done := CheckAndMark(m, known, old(sets), flagged);
        if !r.AllExist? {
          PassMarks(cfg, server, old(sets), known, sets, names, flagged, done);
          PassConsistent(cfg, server, old(sets), known, sets, names, recorded, flagged, done);
          if !r.CallFailed? {
            RefusedMapping(cfg, old(sets), known, server, m);
          }
          return;
        }
      }
      PassConsistent(cfg, server, old(sets), known, sets, names, recorded, flagged, |cfg.mappings|);
      PassAccepted(cfg, server, old(sets), known, sets, names, recorded, flagged);
      PassMarks(cfg, server, old(sets), known, sets, names, flagged, |cfg.mappings|);
      r := AllExist;
    }

    // ----- Creation -----

    /** Makes sure the i-th copy of a planned mapping exists and is recorded. */
    method EnsureCopy(p: PlanEntry, i: nat, name: string, ghost sets0: Cluster, ghost names0: seq<string>) returns (ok: bool)
      requires WellFormed(cfg) && ValidCluster(sets0) && Traced()
      requires EntryFor(cfg, sets0, names0, server, p) && i < |p.sources| && name in p.names
      requires name == CopyName(MappingBase(cfg, sets0, names0, p.mapping), i)
      requires Creating(cfg, server, sets0, names0, sets, names)
      requires i > 0 ==> MappingBase(cfg, sets0, names0, p.mapping) in names
      modifies this`sets, this`names, this`history, this`faults
      ensures Traced() && old(history) <= history && old(faults) <= faults && (ok ==> faults == old(faults))
      ensures Creating(cfg, server, sets0, names0, sets, names)
      ensures AddedOnly(old(sets), old(names), sets, names, name)
      ensures ok ==> CopyDone(sets0, sets, names, name, p.sources[i], Destination(cfg, p.mapping).value.server)
      ensures
        var blocked := CopyBlocked(old(sets), old(names), name, p.sources[i], At(Weights(sets0), p.sources[i]) > 0, Destination(cfg, p.mapping).value.server);
        (ok ==> !blocked) && (!ok && faults == old(faults) ==> blocked)
      ensures
        var dest := Destination(cfg, p.mapping).value.server;
        !ok && faults == old(faults) ==>
          if name in old(sets) then
            || !OnServer(old(sets), name, dest)
            || (At(Weights(sets0), p.sources[i]) > 0 && old(sets)[name].copyOf !in {"", p.sources[i]})
          else name in old(names) && At(Weights(sets0), p.sources[i]) == 0
    {
      hide Creating, Plan, MappingBase, Planned, MatchedSources, WellFormed, ValidCluster, ValidName, Owns, InFamily, CopyName,
        CopiesSource, IsCopyFor, IsReplacement, Traced, Weights, At;
      var m, source := p.mapping, p.sources[i];
      EntryPlanned(cfg, sets0, names0, server, p, i);
      SourceOfCopy(cfg, server, sets0, names0, sets, names, p, i);
      var fd := Destination(cfg, m).value;
      if name in sets {
        if !OnServer(sets, name, fd.server) {
          return false;
        }
        if Desired(sets[source]) > 0 && sets[name].copyOf != "" && sets[name].copyOf != source {
          return false;
        }
      } else {
        var replicas := Desired(sets[source]);
        if name in names && replicas == 0 {
          return false;
        }
        var ms := MachineSet(Some(replicas), Placed(WorkspaceOf(fd)), source, false);
        NewCopyFits(cfg, server, sets0, names0, sets, p, i, name, ms);
        NotRecreatedEmpty(cfg, server, sets0, names0, sets, names, name, ms);
        ok := CreateMachineSet(m, name, ms);
        if !ok {
          return;
        }
        CreatingCreates(cfg, server, sets0, names0, old(sets), names, m, i, name, ms);
      }
      PlacedIsReplacement(cfg, sets, m, name);
      if name !in names {
        CreatingNotes(cfg, server, sets0, names0, sets, names, m, i, name);
        NoteName(name);
      }
      ok := true;
    }

    /** The turn of an entry's i-th source: its copy is skipped if not planned, and otherwise made sure of. */
    method TakeTurn(p: PlanEntry, i: nat, base: string, ghost sets0: Cluster, ghost names0: seq<string>) returns (ok: bool)
      requires WellFormed(cfg) && ValidCluster(sets0) && Traced()
      requires EntryFor(cfg, sets0, names0, server, p) && i < |p.sources| && Creating(cfg, server, sets0, names0, sets, names)
      requires base == MappingBase(cfg, sets0, names0, p.mapping) && base in p.names && (i > 0 ==> base in names)
      requires TouchedUpTo(sets0, names0, sets, names, base, i)
      requires EntryDone(cfg, sets0, names0, sets, names, p, i) && CopiesFree(cfg, sets0, names0, server, p, i)
      modifies this`sets, this`names, this`history, this`faults
      ensures Traced() && old(history) <= history && old(faults) <= faults && (ok ==> faults == old(faults))
      ensures Creating(cfg, server, sets0, names0, sets, names)
      ensures Grown(old(sets), old(names), sets, names) && AddedIn(old(sets), old(names), sets, names, base)
      ensures TouchedUpTo(sets0, names0, sets, names, base, i + 1)
      ensures ok ==> base in names && EntryDone(cfg, sets0, names0, sets, names, p, i + 1) && CopiesFree(cfg, sets0, names0, server, p, i + 1)
      ensures !ok && faults == old(faults) ==> EntryBlocked(cfg, sets0, names0, server, p.mapping)
    {
      hide Creating, EntryDone, Plan, MappingBase, MatchedSources, WellFormed, ValidCluster, Traced, InFamily, CopyName, TouchedUpTo, AddedIn, AddedOnly,
        CopyBlocked, CopyBlockedAt, CopiesFree, EntryBlocked, Weights, At, CopyAccepted, Grown;
      var name := CopyName(base, i);
      FirstCopy(base);
      if name !in p.names {
        NothingAdded(sets0, names0, sets, names, base, i);
        EntryDoneNext(cfg, sets0, names0, sets, names, p, i);
        CopyFree(cfg, sets0, names0, server, p, i);
        return true;
      }
      CopyTurn(cfg, server, sets0, names0, sets, names, p, i);
      ok := EnsureCopy(p, i, name, sets0, names0);
      CopyAdded(sets0, names0, old(sets), old(names), sets, names, base, i);
      if !ok {
        BlockedCopyBlocks(cfg, server, sets0, names0, p, i);
        return;
      }
      GrownDone(cfg, sets0, names0, old(sets), old(names), sets, names, p, i);
      NotedBase(old(names), names, base, name, i);
      EntryDoneNext(cfg, sets0, names0, sets, names, p, i);
      CopyFree(cfg, sets0, names0, server, p, i);
    }

    /** Creates one mapping's missing copies in source order; a source claimed by another mapping stops it. */
    method CreateEntry(p: PlanEntry, claimed: set<string>, ghost sets0: Cluster, ghost names0: seq<string>)
      returns (ok: bool, claimed': set<string>)
      requires WellFormed(cfg) && NoSuffixCut(cfg) && ValidCluster(sets0) && Traced()
      requires EntryFor(cfg, sets0, names0, server, p) && Creating(cfg, server, sets0, names0, sets, names)
      requires Untouched(sets0, names0, sets, names, MappingBase(cfg, sets0, names0, p.mapping))
      modifies this`sets, this`names, this`history, this`faults
      ensures Traced() && old(history) <= history && old(faults) <= faults && (ok ==> faults == old(faults))
      ensures Creating(cfg, server, sets0, names0, sets, names)
      ensures Grown(old(sets), old(names), sets, names) && AddedIn(old(sets), old(names), sets, names, MappingBase(cfg, sets0, names0, p.mapping))
      ensures ok ==> EntryDone(cfg, sets0, names0, sets, names, p, |p.sources|) && claimed' == claimed + Elements(p.sources)
      ensures ok ==> claimed !! Elements(p.sources) && !EntryBlocked(cfg, sets0, names0, server, p.mapping)
      ensures !ok && faults == old(faults) ==> claimed * Elements(p.sources) != {} || EntryBlocked(cfg, sets0, names0, server, p.mapping)
    {
      hide Creating, EntryDone, Plan, MappingBase, MatchedSources, WellFormed, NoSuffixCut, ValidCluster, Traced, BaseName, Owns, InFamily,
        CopyName, Untouched, TouchedUpTo, AddedIn, CopiesFree, EntryBlocked, Elements, Grown;
      claimed' := claimed;
      EntryDoneNone(cfg, sets0, names0, server, sets, names, p);
      var planned := SortNames(p.names);
      var base := BaseName(cfg.infraID, cfg.mappings[p.mapping].destination, planned);
      EntryBase(cfg, sets0, names0, server, p, planned);
      EntryStarts(cfg, sets0, names0, server, sets, names, p, base);
      for i := 0 to |p.sources|
        invariant Traced() && old(history) <= history && old(faults) == faults && Creating(cfg, server, sets0, names0, sets, names)
        invariant Grown(old(sets), old(names), sets, names) && AddedIn(old(sets), old(names), sets, names, base)
        invariant TouchedUpTo(sets0, names0, sets, names, base, i) && (i > 0 ==> base in names)
        invariant EntryDone(cfg, sets0, names0, sets, names, p, i) && CopiesFree(cfg, sets0, names0, server, p, i)
        invariant claimed' == claimed + Elements(p.sources[..i]) && claimed !! Elements(p.sources[..i])
      {
        ClaimNext(cfg, sets0, names0, server, p, claimed, i);
        if p.sources[i] in claimed' {
          return false, claimed';
        }
        claimed' := claimed' + {p.sources[i]};
        ghost var before, noted := sets, names;
        ok := TakeTurn(p, i, base, sets0, names0);
        GrownTrans(old(sets), old(names), before, noted, sets, names, base);
        if !ok {
          return;
        }
      }
      assert p.sources[..|p.sources|] == p.sources;
      FreeEntry(cfg, sets0, names0, server, p);
      ok := true;
    }

    /**
     Creates the missing destination MachineSets. An oversized plan creates nothing; at every exit the
     record is free of duplicates and within the planned union; success is accepted by Step 1; and unless a
     call fails it succeeds exactly if nothing blocked it at the start.
     */
    method CreateMissing() returns (ok: bool)
      requires Valid()
      modifies this`sets, this`names, this`history, this`faults
      ensures Valid() && old(history) <= history && old(faults) <= faults
      ensures SourcesUntouched(server, old(sets), sets)
      ensures Elements(names) <= PlannedUnion(cfg, old(sets), old(names), server, |cfg.mappings|)
      ensures names == old(names) || |names| <= 256
      ensures |PlannedUnion(cfg, old(sets), old(names), server, |cfg.mappings|)| > 256 ==>
                !ok && sets == old(sets) && names == old(names)
      ensures forall n | n in old(sets) :: n in sets && sets[n] == old(sets)[n]
      ensures forall n | n in sets && n !in old(sets) :: NewCopy(cfg, old(sets), old(names), server, n, sets[n])
      ensures forall n | n in sets && n !in old(sets) && n in old(names) :: sets[n].replicas != Some(0)
      ensures ok ==> Accepts(cfg, sets, names)
      ensures ok ==> !CreationBlocked(cfg, old(sets), old(names), server)
      ensures !ok && faults == old(faults) ==> CreationBlocked(cfg, old(sets), old(names), server)
    {
      hide Creating, Consistent, NoSuffixCut, EntryDone, PlansUpTo, EntryFor, Accepts, PlannedUnion, Traced, SourcesUntouched, Ready, RecordsSound, RecordsPlaced,
        RecordsAgree, Plannable, MappingBlocked, Contested, NewCopy;
      ReadyParts(cfg, server);
      ConsistentParts(cfg, sets, recorded, names);
      SoundRecordsAgree(cfg, sets, names, server);
      CreatingStarts(cfg, server, sets, names);
      CreatingConsistent(cfg, server, sets, names, recorded, sets, names);
      CreatingBounded(cfg, server, sets, names, sets, names);
      var plans := PlanWorkers(cfg, sets, names, server);
      if plans.None? {
        UnplannableBlocks(cfg, sets, names, server);
        return false;
      }
      PlannedBlocked(cfg, sets, names, server);
      ok := CreatePlanned(plans.value);
      CreatingConsistent(cfg, server, old(sets), old(names), recorded, sets, names);
      CreatingBounded(cfg, server, old(sets), old(names), sets, names);
      CreationAddsCopies(cfg, server, old(sets), old(names), sets, names);
      if ok {
        CreationAccepted(cfg, server, old(sets), old(names), sets, names, plans.value);
      }
    }

    /** Every planned name must exist in the end; one that does not can no longer be created. */
    method AllPlannedExist(plans: seq<PlanEntry>, ghost sets0: Cluster, ghost names0: seq<string>) returns (ok: bool)
      requires WellFormed(cfg) && ValidCluster(sets0) && PlansUpTo(cfg, sets0, names0, server, plans, |cfg.mappings|)
      requires OnlyPlannedAdded(cfg, sets0, names0, server, sets, names)
      requires PlanDone(cfg, server, sets0, names0, sets, names, plans, |plans|)
      ensures ok ==> forall k | 0 <= k < |plans| ::
                && (forall n | n in plans[k].names :: n in sets)
                && plans[k].mapping < |cfg.mappings| && Destination(cfg, plans[k].mapping).Some?
                && !Unrecoverable(cfg, sets0, names0, server, plans[k].mapping)
      ensures !ok ==> !PlanFree(cfg, sets0, names0, server)
    {
      hide EntryDone, EntryFor, WellFormed, ValidCluster, PlansUpTo, PlanFree, Unrecoverable, OnlyPlannedAdded, AddedFor, EntriesFree;
      for i := 0 to |plans|
        invariant forall k | 0 <= k < i ::
                && (forall n | n in plans[k].names :: n in sets)
                && plans[k].mapping < |cfg.mappings| && Destination(cfg, plans[k].mapping).Some?
                && !Unrecoverable(cfg, sets0, names0, server, plans[k].mapping)
      {
        PlanEntryAt(cfg, sets0, names0, server, plans, i);
        MissingIsUnrecoverable(cfg, server, sets0, names0, sets, names, plans[i]);
        if !(plans[i].names <= sets.Keys) {
          LostNameBlocks(cfg, sets0, names0, server, plans, i);
          return false;
        }
      }
      ok := true;
    }

    /** Works through a plan; in the end every planned name must exist. */
    method CreatePlanned(plans: seq<PlanEntry>) returns (ok: bool)
      requires WellFormed(cfg) && NoSuffixCut(cfg) && ValidCluster(sets) && Distinct(names) && Traced()
      requires PlansUpTo(cfg, sets, names, server, plans, |cfg.mappings|)
      modifies this`sets, this`names, this`history, this`faults
      ensures Traced() && old(history) <= history && old(faults) <= faults
      ensures Creating(cfg, server, old(sets), old(names), sets, names)
      ensures ok ==> forall p | p in plans ::
                EntryDone(cfg, old(sets), old(names), sets, names, p, |p.sources|) && forall n | n in p.names :: n in sets
      ensures ok ==> PlanFree(cfg, old(sets), old(names), server)
      ensures !ok && faults == old(faults) ==> !PlanFree(cfg, old(sets), old(names), server)
    {
      hide Creating, EntryDone, EntryFor, WellFormed, NoSuffixCut, ValidCluster, Traced, PlansUpTo, PlanFree, AddedIn, Grown, Untouched, PlanDone,
        EntryBlocked, Unrecoverable, OnlyPlannedAdded, MappingBase, Elements;
      CreatingStarts(cfg, server, sets, names);
      PlanDoneStarts(cfg, sets, names, server, plans);
      var claimed: set<string> := {};
      for i := 0 to |plans|
        invariant Traced() && old(history) <= history && old(faults) == faults && Creating(cfg, server, old(sets), old(names), sets, names)
        invariant PlanDone(cfg, server, old(sets), old(names), sets, names, plans, i)
        invariant claimed == ClaimedBy(plans, i)
      {
        ghost var before, noted := sets, names;
        PlanDoneTurn(cfg, server, old(sets), old(names), sets, names, plans, i);
        ok, claimed := CreateEntry(plans[i], claimed, old(sets), old(names));
        if !ok {
          EntryStops(cfg, old(sets), old(names), server, plans, i);
          return;
        }
        PlanDoneNext(cfg, server, old(sets), old(names), before, noted, sets, names, plans, i);
      }
      PlannedSoFar(cfg, server, old(sets), old(names), sets, names);
      ok := AllPlannedExist(plans, old(sets), old(names));
      if ok {
        PlanDoneEnds(cfg, server, old(sets), old(names), sets, names, plans);
      }
    }

    // ----- Step 6: recovery, gate, scale-down -----

    /** Notes recovered names one by one. */
    method NoteRecovered(recovered: seq<string>)
      requires Traced() && ValidCluster(sets) && Distinct(names + recovered)
      requires forall n | n in recovered :: BaseKnown(cfg, sets, names, server, names + recovered, n)
      modifies this`names, this`history
      ensures Traced() && old(history) <= history
      ensures names == old(names) + recovered
    {
      hide Traced, BaseKnown, ValidCluster, IsReplacement;
      for i := 0 to |recovered|
        invariant Traced() && old(history) <= history
        invariant names == old(names) + recovered[..i]
      {
        var all := old(names) + recovered;
        RecoveredReplacement(cfg, sets, old(names), server, all, recovered[i]);
        assert all[|old(names)| + i] == recovered[i] && all[..|old(names)| + i] == names;
        NoteName(recovered[i]);
        assert recovered[..i + 1] == recovered[..i] + [recovered[i]];
      }
      assert recovered[..|recovered|] == recovered;
    }

    /** Recovers names lost to a crash, publishes every name, and checks that all running sources are covered. */
    method OpenGate() returns (ok: bool)
      requires Valid()
      modifies this`names, this`recorded, this`history, this`faults
      ensures Valid() && old(history) <= history && old(faults) <= faults
      ensures Recovered(cfg, sets, old(names), server, names)
      ensures ok ==> recorded == names && GateHolds(cfg, sets, server) && faults == old(faults)
      ensures ok ==> Recovers(cfg, sets, old(names), server) && CoverageHolds(cfg, sets, names, server)
      ensures ok ==> forall m | 0 <= m < |cfg.mappings| :: MappingKnown(cfg, sets, old(names), server, m, names)
      ensures Accepts(cfg, sets, old(names)) && faults == old(faults) ==> (ok <==> TopologyFits(cfg, sets, server))
    {
      hide Consistent, Ready, NoSuffixCut, Traced, BaseKnown, MappingKnown, Accepts, TopologyFits, GateHolds, Recovers, CoverageHolds, WellFormed, RecordsSound, Sourced, SharedSource;
      ReadyParts(cfg, server);
      ConsistentParts(cfg, sets, recorded, names);
      if Accepts(cfg, sets, names) {
        AcceptedRecovers(cfg, server, sets, names);
      }
      var recovered := RecoverNames(cfg, sets, names, server);
      if recovered.None? {
        return false;
      }
      NoteRecovered(recovered.value);
      RecoveryConsistent(cfg, sets, recorded, old(names), server, names);
      ok := PublishNames();
      if !ok {
        return;
      }
      DistinctSources(cfg);
      ok := ValidateCoverage(cfg, sets, names, server);
      if ok {
        GateIsSound(cfg, sets, old(names), names, server);
      }
      if Accepts(cfg, sets, old(names)) {
        AcceptedCovers(cfg, server, sets, old(names), names);
      }
    }

    /** Scales the running sources to zero one after the other; any call may fail half-way. */
    method LowerSources() returns (ok: bool, scaled: bool)
      requires Traced() && Sourced(cfg, server) && GateHolds(cfg, sets, server) && recorded == names
      modifies this`sets, this`history, this`faults
      ensures Traced() && old(history) <= history && old(faults) <= faults && (ok <==> faults == old(faults))
      ensures Lowered(server, old(sets), sets)
      ensures ok ==> Running(server, sets) == {} && (scaled <==> Running(server, old(sets)) != {})
    {
      hide Traced, GateHolds, Lowered, Sourced;
      scaled := false;
      LoweredSelf(server, sets);
      var todo := ByVCenter(sets, server);
      while todo != {}
        invariant Traced() && old(history) <= history && old(faults) == faults
        invariant Lowered(server, old(sets), sets) && GateHolds(cfg, sets, server)
        invariant todo <= ByVCenter(sets, server)
        invariant forall n | n in Running(server, sets) :: n in todo
        invariant scaled <==> Running(server, old(sets)) != Running(server, sets)
        invariant Running(server, sets) <= Running(server, old(sets))
        decreases |todo|
      {
        var n :| n in todo;
        if Desired(sets[n]) > 0 {
          assert n in Running(server, sets);
          LoweredTrans(server, old(sets), sets, n);
          GateSurvives(cfg, server, Now(), n);
          ok := ScaleToZero(n);
          if !ok {
            return;
          }
          scaled := true;
          assert n !in Running(server, sets);
        }
        todo := todo - {n};
      }
      ok := true;
    }

    /** Scales every running source to zero, once the gate is open. */
    method ScaleDownSources() returns (ok: bool, scaled: bool)
      requires Valid()
      modifies this`sets, this`names, this`recorded, this`history, this`faults
      ensures Valid() && old(history) <= history && old(faults) <= faults
      ensures Recovered(cfg, old(sets), old(names), server, names) && Lowered(server, old(sets), sets)
      ensures sets != old(sets) ==>
                && recorded == names && GateHolds(cfg, old(sets), server)
                && Recovers(cfg, old(sets), old(names), server) && CoverageHolds(cfg, old(sets), names, server)
      ensures ok ==> recorded == names && Running(server, sets) == {}
      ensures ok ==> forall n | n in sets && sets[n].provider.Placed? && sets[n].provider.workspace.server == server :: sets[n].replicas == Some(0)
      ensures ok ==> (scaled <==> Running(server, old(sets)) != {})
      ensures Accepts(cfg, old(sets), old(names)) && faults == old(faults) ==> (ok <==> TopologyFits(cfg, old(sets), server))
    {
      hide Consistent, Ready, NoSuffixCut, Traced, GateHolds, Recovered, Recovers, CoverageHolds, Lowered, Accepts, TopologyFits, Sourced, WellFormed, SharedSource, Running;
      scaled := false;
      LoweredSelf(server, sets);
      ok := OpenGate();
      if !ok {
        return;
      }
      ReadyParts(cfg, server);
      ok, scaled := LowerSources();
      ScaledConsistent(cfg, server, old(sets), sets, names);
      ByPlacement(server, sets);
    }

    // ----- Step 8: deletion -----

    /** Requests the deletion of every source MachineSet, refusing while any of them still has replicas. */
    method DeleteSources() returns (ok: bool)
      requires Valid() && recorded == names
      modifies this`sets, this`history, this`faults, this`requested
      ensures Valid() && old(history) <= history && old(faults) <= faults
      ensures sets == old(sets) || Pruned(server, old(sets), sets)
      ensures ok ==> ByVCenter(old(sets), server) <= requested
      ensures faults == old(faults) ==> (ok <==> Running(server, old(sets)) == {})
    {
      hide Consistent, Ready, NoSuffixCut, Traced, Pruned, ByVCenter;
      if Running(server, sets) != {} {
        return false;
      }
      NothingRuns(server, sets);
      ReadyParts(cfg, server);
      var todo := ByVCenter(sets, server);
      ok := true;
      while todo != {} && ok
        invariant Traced() && old(history) <= history && Pruned(server, old(sets), sets)
        invariant old(faults) <= faults && (ok <==> faults == old(faults))
        invariant ok ==> ByVCenter(old(sets), server) <= todo + requested
        invariant todo <= ByVCenter(sets, server)
        invariant forall n | n in ByVCenter(sets, server) :: n in sets && Desired(sets[n]) == 0
        decreases |todo|
      {
        var n :| n in todo;
        DeletedSource(server, old(sets), sets, n);
        ok := DeleteMachineSet(n);
        todo := todo - {n};
      }
      DeletedConsistent(cfg, server, old(sets), sets, names);
    }

    // ----- The whole step -----

    /** The control plane is updated, no source runs anything, and the deletion of each one left was accepted. */
    ghost predicate OnlyDeletionsLeft()
      reads this
    {
      cpms && Running(server, sets) == {} && ByVCenter(sets, server) <= requested
    }

    /** What a reconcile waits for: destination workers, the pools, the rollout, the old machines, or accepted deletions. */
    ghost predicate MustWait(env: Environment)
      reads this
    {
      || !WorkersReady(cfg, sets, names, env.reports)
      || (!cpms && !env.poolsConverged)
      || (cpms && !env.rolloutComplete)
      || (cpms && Running(server, sets) == {} && !env.oldMachinesGone)
      || OnlyDeletionsLeft()
    }

    /** In some state from position i of the history on, the destination workers were ready. */
    ghost predicate ReadySince(i: int, reports: Reports)
      reads this
    {
      exists k :: i <= k < |history| && 0 <= k && WorkersReady(cfg, history[k].sets, history[k].names, reports)
    }

    /** In some state from position i of the history on, something other than a failing call stood in the way. */
    ghost predicate ObstructedSince(i: int)
      reads this
    {
      exists k :: i <= k < |history| && 0 <= k && Obstructed(cfg, server, history[k])
    }

    /** What one reconcile does to its own sources and to the control plane never goes backwards. */
    method RunSteps(env: Environment) returns (out: Outcome)
      requires Valid() && names == recorded
      modifies this
      ensures Valid() && old(history) <= history && old(faults) <= faults
      ensures !out.Failed? ==>
                && Accepts(cfg, sets, names)
                && NoRegress(server, old(Now()), State(sets, names, names, cpms))
      ensures out.Progressed? ==> Advance(cfg, server, old(Now()), State(sets, names, names, cpms))
      ensures out.Done? ==> ByVCenter(sets, server) == {}
      ensures out.Waiting? ==> MustWait(env)
      ensures out.Failed? ==> faults > old(faults) || ObstructedSince(|old(history)| - 1)
      ensures cpms != old(cpms) ==> env.poolsConverged && WorkersReady(cfg, sets, names, env.reports)
      ensures Running(server, sets) != Running(server, old(sets)) ==>
                old(cpms) && env.rolloutComplete && ReadySince(|old(history)| - 1, env.reports)
      ensures requested != old(requested) || ByVCenter(sets, server) != ByVCenter(old(sets), server) ==>
                && old(cpms) && env.rolloutComplete && env.oldMachinesGone && ReadySince(|old(history)| - 1, env.reports)
                && Running(server, old(sets)) == {}
    {
      hide Consistent, Ready, NoSuffixCut, Traced, Accepts, Settled, SourcesUntouched, WorkersReady, GateHolds, Recovered, Lowered, Pruned,
        ByVCenter, Running, Weights, PlannedUnion, Obstructed, Fails, CreationBlocked, Recovers, SwappedCopy;
      ghost var start, first := Now(), |history| - 1;
      TracedNow(this);
      var exist := TargetMachineSetsExist();
      SameSourcesRunning(server, old(sets), sets);
      if exist.Unresolved? || exist.CallFailed? {
        if exist.Unresolved? {
          FailsObstructs(cfg, server, start);
          assert history[first] == start;
        }
        return Failed;
      }
      if exist.SomeMissing? {
        ghost var marked, at := Now(), |history| - 1;
        TracedNow(this);
        var created := CreateMissing();
        UntouchedRunning(server, marked.sets, sets);
        if !created && CreationBlocked(cfg, marked.sets, marked.names, server) {
          BlockedObstructs(cfg, server, marked);
          assert history[at] == marked;
        }
        return if created then Progressed else Failed;
      }
      TracedNow(this);
      out := FinishSteps(env, start);
    }

    /** Steps 2 to 8, after Step 1 has accepted. */
    method FinishSteps(env: Environment, ghost start: State) returns (out: Outcome)
      requires Valid() && Settled(cfg, sets, names, server)
      requires NoRegress(server, start, Now())
      modifies this
      ensures Valid() && old(history) <= history && old(faults) <= faults
      ensures !out.Failed? ==>
                && Accepts(cfg, sets, names)
                && NoRegress(server, start, State(sets, names, names, cpms))
      ensures out.Progressed? ==> Advance(cfg, server, start, State(sets, names, names, cpms))
      ensures out.Done? ==> ByVCenter(sets, server) == {}
      ensures out.Waiting? ==> MustWait(env)
      ensures out.Failed? ==> faults > old(faults) || ObstructedSince(|old(history)| - 1)
      ensures cpms != old(cpms) ==> env.poolsConverged && WorkersReady(cfg, sets, names, env.reports)
      ensures Running(server, sets) != Running(server, old(sets)) ==>
                old(cpms) && env.rolloutComplete && ReadySince(|old(history)| - 1, env.reports)
      ensures requested != old(requested) || ByVCenter(sets, server) != ByVCenter(old(sets), server) ==>
                && old(cpms) && env.rolloutComplete && env.oldMachinesGone && ReadySince(|old(history)| - 1, env.reports)
                && Running(server, old(sets)) == {}
      ensures Running(server, sets) != Running(server, old(sets)) ==>
                Sum(Weights(old(sets)), ByVCenter(old(sets), server)) <= ReadyNodes(cfg, old(sets), old(names), env.reports)
    {
      hide Consistent, Ready, NoSuffixCut, Traced, Accepts, Settled, WorkersReady, GateHolds, Recovered, Lowered, Pruned, ByVCenter, Running,
        Recovers, CoverageHolds, Sum, Weights, ReadyNodes, Obstructed, WaitedMissing, TopologyFits, RecordsSound;
      ghost var first := |history| - 1;
      TracedNow(this);
      SettledAccepts(cfg, sets, names, server);
      ConsistentParts(cfg, sets, recorded, names);
      AcceptedObstacles(cfg, server, Now());
      var wait := CheckWorkerReadiness(cfg, sets, names, env.reports);
      if wait.Broken? {
        return Failed;
      }
      if wait.NotYet? {
        return Waiting;
      }
      if !cpms {
        if !env.poolsConverged {
          return Waiting;
        }
        var updated := UpdateControlPlane();
        return if updated then Progressed else Failed;
      }
      if !env.rolloutComplete {
        return Waiting;
      }
      var scaled, any := ScaleDownSources();
      SettledAfterScale(cfg, server, old(sets), old(names), sets, names);
      if sets != old(sets) {
        NodesCoverSources(cfg, server, old(sets), old(names), names, env.reports);
      }
      if !scaled {
        return Failed;
      }
      if any {
        return Progressed;
      }
      if !env.oldMachinesGone {
        return Waiting;
      }
      ghost var before := sets;
      var present := ByVCenter(sets, server);
      var deleted := DeleteSources();
      SettledAfterDelete(cfg, server, before, sets, names);
      if !deleted {
        return Failed;
      }
      if ByVCenter(sets, server) == {} {
        return Done;
      }
      return if ByVCenter(sets, server) == present then Waiting else Progressed;
    }

    /**
     One reconcile of the workload step. Wherever it stops, the capacity the migration started with is
     still there; if it neither fails nor waits it is strictly closer to the end; and it reports
     completion only when no source MachineSet remains.
     */
    method EnsureWorkloadMigrated(env: Environment) returns (out: Outcome)
      requires Valid()
      modifies this
      ensures Valid() && old(history) <= history && old(faults) <= faults
      ensures MigratedCapacity(cfg, server, sets) >= Sum(Weights(history[0].sets), ByVCenter(history[0].sets, server))
      ensures !out.Failed? ==> recorded == names && Accepts(cfg, sets, recorded)
      ensures !out.Failed? ==> StepsLeft(cfg, server, Now()) <= StepsLeft(cfg, server, old(Now()))
      ensures out.Progressed? ==> StepsLeft(cfg, server, Now()) < StepsLeft(cfg, server, old(Now()))
      ensures out.Done? ==> forall n | n in sets && sets[n].provider.Placed? :: sets[n].provider.workspace.server != server
      ensures out.Done? ==> ByVCenter(sets, server) == {}
      ensures out.Waiting? ==> MustWait(env)
      ensures out.Failed? ==> faults > old(faults) || ObstructedSince(|old(history)|)
      ensures cpms != old(cpms) ==> env.poolsConverged && WorkersReady(cfg, sets, names, env.reports)
      ensures Running(server, sets) != Running(server, old(sets)) ==>
                old(cpms) && env.rolloutComplete && ReadySince(|old(history)|, env.reports)
      ensures requested != old(requested) || ByVCenter(sets, server) != ByVCenter(old(sets), server) ==>
                && old(cpms) && env.rolloutComplete && env.oldMachinesGone && ReadySince(|old(history)|, env.reports)
                && Running(server, old(sets)) == {}
    {
      hide Consistent, NoSuffixCut, Accepts, ByVCenter, Running, WorkersReady, Obstructed, StepsLeft, Advance, NoRegress, MigratedCapacity, Sum, WellFormed, Sourced, SharedSource, Step;
      Begin();
      ghost var start := Now();
      SameStepsLeft(cfg, server, old(Now()), start);
      var readable := ReadCluster();
      out := Failed;
      if readable {
        out := RunSteps(env);
      }
      var published := PublishNames();
      CapacityNeverLost(cfg, server, history, |history| - 1);
      if !published {
        return Failed;
      }
      ByPlacement(server, sets);
      if !out.Failed? {
        StepsShrink(cfg, server, start, Now());
      }
    }
  }

  /** What can keep a reconcile from succeeding although no call fails. */
  ghost predicate Obstructed(cfg: Config, server: string, s: State) {
    || (exists m | 0 <= m < |cfg.mappings| :: Fails(cfg, s.sets, s.names, server, m))
    || CreationBlocked(cfg, s.sets, s.names, server)
    || !TopologyFits(cfg, s.sets, server)
    || exists m | 0 <= m < |cfg.mappings| :: StrayCopy(cfg, s.sets, s.names, server, m)
  }

  lemma FailsObstructs(cfg: Config, server: string, s: State)
    requires exists m | 0 <= m < |cfg.mappings| :: Fails(cfg, s.sets, s.names, server, m)
    ensures Obstructed(cfg, server, s)
  {
    hide Fails, CreationBlocked, TopologyFits, StrayCopy;
  }

  lemma BlockedObstructs(cfg: Config, server: string, s: State)
    requires CreationBlocked(cfg, s.sets, s.names, server)
    ensures Obstructed(cfg, server, s)
  {
    hide Fails, CreationBlocked, TopologyFits, StrayCopy;
  }

  lemma AcceptedObstacles(cfg: Config, server: string, s: State)
    requires Ready(cfg, server) && RecordsSound(cfg, s.sets, s.names) && Accepts(cfg, s.sets, s.names)
    ensures WaitedMissing(cfg, s.sets, s.names) || !TopologyFits(cfg, s.sets, server) ==> Obstructed(cfg, server, s)
  {
    hide Fails, CreationBlocked, TopologyFits, StrayCopy, WaitedMissing, Ready, RecordsSound, Accepts;
    if WaitedMissing(cfg, s.sets, s.names) {
      OnlyStraysBreakReadiness(cfg, s.sets, s.names, server);
    }
  }

  lemma ByPlacement(server: string, sets: Cluster)
    ensures ByVCenter(sets, server) == {} <==> forall n | n in sets && sets[n].provider.Placed? :: sets[n].provider.workspace.server != server
    ensures Running(server, sets) == {} <==>
              forall n | n in sets && sets[n].provider.Placed? && sets[n].provider.workspace.server == server :: sets[n].replicas == Some(0)
  {
    forall n | n in sets && OnServer(sets, n, server) ensures n in ByVCenter(sets, server) {
    }
    forall n | n in sets && OnServer(sets, n, server) && sets[n].replicas != Some(0) ensures n in Running(server, sets) {
    }
  }

  lemma ReadyOnly(w: WorkerMigration)
    requires w.Valid()
    ensures Ready(w.cfg, w.server)
  {
  }

  lemma TracedNow(w: WorkerMigration)
    requires w.Traced()
    ensures w.history != [] && w.history[|w.history| - 1] == w.Now()
  {
  }

  lemma ReadyParts(cfg: Config, server: string)
    requires Ready(cfg, server)
    ensures WellFormed(cfg) && Sourced(cfg, server) && server != "" && SharedSource(cfg, server)
  {
  }

  lemma ConsistentParts(cfg: Config, sets: Cluster, recorded: seq<string>, names: seq<string>)
    requires Consistent(cfg, sets, recorded, names)
    ensures ValidCluster(sets) && recorded <= names && Distinct(names) && RecordsSound(cfg, sets, names)
  {
  }

  lemma DistinctSources(cfg: Config)
    requires WellFormed(cfg)
    ensures Distinct(SourcesOf(cfg.mappings))
  {
  }

  lemma LoweredSelf(server: string, sets: Cluster)
    ensures Lowered(server, sets, sets)
  {
  }

  lemma GateSurvives(cfg: Config, server: string, s: State, n: string)
    requires Sourced(cfg, server) && n in ByVCenter(s.sets, server) && GateHolds(cfg, s.sets, server) && s.names == s.recorded
    ensures GateHolds(cfg, s.sets[n := s.sets[n].(replicas := Some(0))], server)
  {
    hide GateHolds;
    GateSurvivesScale(cfg, server, s, n);
  }

  lemma ScaledConsistent(cfg: Config, server: string, a: Cluster, b: Cluster, names: seq<string>)
    requires Sourced(cfg, server) && Consistent(cfg, a, names, names) && Lowered(server, a, b)
    ensures Consistent(cfg, b, names, names)
  {
    hide Consistent, Lowered;
    CleanupKeepsConsistent(cfg, server, a, b, names);
  }

  lemma SameStepsLeft(cfg: Config, server: string, s: State, t: State)
    requires t == s.(names := s.recorded)
    ensures StepsLeft(cfg, server, t) == StepsLeft(cfg, server, s)
  {
  }

  /** Ready nodes of all destination families. */
  ghost function ReadyNodes(cfg: Config, sets: Cluster, names: seq<string>, reports: Reports): nat {
    Sum(NodeCounts(reports), FamiliesUpTo(cfg, sets, names, |cfg.mappings|))
  }

  lemma NodesCoverSources(cfg: Config, server: string, sets: Cluster, names: seq<string>, names': seq<string>, reports: Reports)
    requires Ready(cfg, server) && ValidCluster(sets) && WorkersReady(cfg, sets, names, reports)
    requires Recovers(cfg, sets, names, server) && CoverageHolds(cfg, sets, names', server)
    ensures Sum(Weights(sets), ByVCenter(sets, server)) <= ReadyNodes(cfg, sets, names, reports)
  {
    hide WorkersReady, Recovers, CoverageHolds, NodesReady, WellFormed, SharedSource, FamiliesUpTo;
    ReadinessMeansNodes(cfg, sets, names, server, reports);
    ReadyNodesCoverSources(cfg, sets, names, names', server, NodeCounts(reports));
  }

  lemma NothingRuns(server: string, sets: Cluster)
    requires Running(server, sets) == {}
    ensures Pruned(server, sets, sets) && forall n | n in ByVCenter(sets, server) :: n in sets && Desired(sets[n]) == 0
  {
    forall n | n in ByVCenter(sets, server) ensures Desired(sets[n]) == 0 {
      assert n !in Running(server, sets);
    }
  }

  lemma DeletedSource(server: string, a: Cluster, b: Cluster, n: string)
    requires Pruned(server, a, b) && n in ByVCenter(b, server)
    ensures Pruned(server, a, b - {n}) && ByVCenter(b - {n}, server) == ByVCenter(b, server) - {n}
    ensures forall k | k in ByVCenter(b, server) :: k in b
  {
    PrunedTrans(server, a, b, n);
  }

  lemma DeletedConsistent(cfg: Config, server: string, a: Cluster, b: Cluster, names: seq<string>)
    requires Sourced(cfg, server) && Consistent(cfg, a, names, names) && Pruned(server, a, b)
    ensures Consistent(cfg, b, names, names)
  {
    hide Consistent, Pruned;
    CleanupKeepsConsistent(cfg, server, a, b, names);
  }

  lemma SettledAfterScale(cfg: Config, server: string, sets: Cluster, names: seq<string>, sets': Cluster, names': seq<string>)
    requires Ready(cfg, server) && NoSuffixCut(cfg) && ValidCluster(sets) && Settled(cfg, sets, names, server)
    requires Recovered(cfg, sets, names, server, names') && Lowered(server, sets, sets')
    ensures Settled(cfg, sets', names', server) && Accepts(cfg, sets', names')
    ensures ByVCenter(sets', server) == ByVCenter(sets, server) && Running(server, sets') <= Running(server, sets)
  {
    hide Settled, Recovered, Lowered, NoSuffixCut, Accepts, WellFormed, SharedSource;
    RecoveryKeepsSettled(cfg, server, sets, names, names');
    CleanupKeepsAccepting(cfg, server, sets, sets', names');
    LoweredRunning(server, sets, sets');
  }

  lemma SettledAfterDelete(cfg: Config, server: string, sets: Cluster, sets': Cluster, names: seq<string>)
    requires Ready(cfg, server) && Settled(cfg, sets, names, server) && (sets' == sets || Pruned(server, sets, sets'))
    ensures Accepts(cfg, sets', names)
    ensures ByVCenter(sets', server) <= ByVCenter(sets, server) && Running(server, sets') <= Running(server, sets)
  {
    hide Settled, Pruned, Accepts, WellFormed, SharedSource;
    if sets' == sets {
      SettledAccepts(cfg, sets, names, server);
    } else {
      CleanupKeepsAccepting(cfg, server, sets, sets', names);
      PrunedRunning(server, sets, sets');
    }
  }

  lemma NotedBase(names: seq<string>, names': seq<string>, base: string, name: string, i: nat)
    requires names <= names' && name in names' && name == CopyName(base, i) && (i > 0 ==> base in names)
    ensures base in names'
  {
  }

  lemma FirstCopy(base: string)
    ensures CopyName(base, 0) == base
  {
  }

  // ----- Bookkeeping of a Step 1 pass -----

  /** What a Step 1 pass has established after the first k mappings. */
  ghost predicate PassUpTo(cfg: Config, server: string, sets0: Cluster, names0: seq<string>, sets: Cluster, names: seq<string>, flagged: set<string>, k: nat) {
    && k <= |cfg.mappings|
    && FlagsOnly(sets0, sets, flagged) && FlagsUpTo(cfg, sets0, names0, server, flagged, k)
    && names0 <= names && Distinct(names) && (forall n | n in names && n !in names0 :: n in flagged)
  }

  lemma PassStarts(cfg: Config, server: string, sets: Cluster, recorded: seq<string>, names: seq<string>)
    requires Consistent(cfg, sets, recorded, names)
    ensures ValidCluster(sets) && PassUpTo(cfg, server, sets, names, sets, names, {}, 0)
  {
  }

  lemma BeforeCheck(cfg: Config, server: string, sets0: Cluster, names0: seq<string>, sets: Cluster, names: seq<string>, flagged: set<string>, m: nat)
    requires Ready(cfg, server) && ValidCluster(sets0) && m < |cfg.mappings|
    requires PassUpTo(cfg, server, sets0, names0, sets, names, flagged, m)
    ensures ValidCluster(sets) && MappingBase(cfg, sets, names0, m) == MappingBase(cfg, sets0, names0, m)
    ensures MappingPasses(cfg, sets, names0, m) <==> Passes(cfg, sets0, names0, server, m)
    ensures AggregateAt(cfg, sets, names0, server, m) <==> AggregateAt(cfg, sets0, names0, server, m)
    ensures MappingBroken(cfg, sets, names0, m) <==> Fails(cfg, sets0, names0, server, m)
  {
    hide MappingBase, Passes, MappingPasses, AggregateAt, FlagsUpTo, Fails, MappingBroken;
    FailsIsStepOne(cfg, sets, names0, server, m);
    LaterBaseUnflagged(cfg, server, sets0, names0, flagged, m);
    UnflaggedMapping(cfg, server, sets0, sets, flagged, names0, m);
    PassesIsStepOne(cfg, sets, names0, server, m);
  }

  lemma AggregateDecided(cfg: Config, server: string, sets: Cluster, names: seq<string>, m: nat, check: Check)
    requires Ready(cfg, server) && m < |cfg.mappings|
    requires check.aggregate <==>
               && FindByName(cfg.infraFDs, cfg.mappings[m].source).Some?
               && FindByName(cfg.infraFDs, cfg.mappings[m].source).value.server != ""
               && SeenAsAggregate(cfg, sets, names, m, FindByName(cfg.infraFDs, cfg.mappings[m].source).value)
    ensures check.aggregate <==> AggregateAt(cfg, sets, names, server, m)
  {
    SourcesAgree(cfg, sets, server, m);
  }

  lemma PassUnmarked(cfg: Config, server: string, sets0: Cluster, names0: seq<string>, sets: Cluster, names: seq<string>, flagged: set<string>, m: nat)
    requires m < |cfg.mappings| && PassUpTo(cfg, server, sets0, names0, sets, names, flagged, m)
    requires !AggregateAt(cfg, sets0, names0, server, m)
    ensures PassUpTo(cfg, server, sets0, names0, sets, names, flagged, m + 1)
  {
    hide AggregateAt, MappingBase, FlagsUpTo, FlagsOnly;
    var same := FlagsExtend(cfg, server, sets0, names0, flagged, m, false);
  }

  lemma MarkedFlags(sets0: Cluster, sets: Cluster, flagged: set<string>, base: string)
    requires FlagsOnly(sets0, sets, flagged) && base in sets
    ensures FlagsOnly(sets0, sets[base := sets[base].(aggregate := true)], flagged + {base})
  {
  }

  lemma MarkedIsReplacement(cfg: Config, server: string, sets: Cluster, names: seq<string>, sets': Cluster, flagged: set<string>, m: nat)
    requires ValidCluster(sets) && m < |cfg.mappings| && AggregateAt(cfg, sets, names, server, m)
    requires FlagsOnly(sets, sets', flagged)
    ensures IsReplacement(cfg, sets', MappingBase(cfg, sets, names, m))
  {
    hide MappingBase, Owns, MatchedSources, RecordedFamily;
    var base := MappingBase(cfg, sets, names, m);
    FamilyOwned(cfg, sets, names, m, base) by { assert InFamily(base, base); }
    assert OnServer(sets, base, Destination(cfg, m).value.server);
    assert base in Replacements(cfg, sets', m);
  }

  lemma PassMarked(cfg: Config, server: string, sets0: Cluster, names0: seq<string>, sets: Cluster, names: seq<string>, flagged: set<string>, m: nat) returns (flagged': set<string>)
    requires m < |cfg.mappings| && PassUpTo(cfg, server, sets0, names0, sets, names, flagged, m)
    requires AggregateAt(cfg, sets0, names0, server, m) && ValidCluster(sets0)
    requires MappingBase(cfg, sets, names0, m) == MappingBase(cfg, sets0, names0, m) && MappingBase(cfg, sets, names0, m) in sets
    ensures
      var base := MappingBase(cfg, sets, names0, m);
      var sets' := sets[base := sets[base].(aggregate := true)];
      && flagged' == flagged + {base} && IsReplacement(cfg, sets', base)
      && PassUpTo(cfg, server, sets0, names0, sets', names, flagged', m + 1)
  {
    hide AggregateAt, MappingBase, FlagsUpTo, FlagsOnly, IsReplacement;
    var base := MappingBase(cfg, sets0, names0, m);
    flagged' := FlagsExtend(cfg, server, sets0, names0, flagged, m, true);
    MarkedFlags(sets0, sets, flagged, base);
    MarkedIsReplacement(cfg, server, sets0, names0, sets[base := sets[base].(aggregate := true)], flagged', m);
  }

  /** Only annotations have been added, each to a recorded MachineSet, and only annotated ones have been recorded. */
  ghost predicate OnlyMarked(sets: Cluster, names: seq<string>, sets': Cluster, names': seq<string>) {
    && sets'.Keys == sets.Keys && names <= names'
    && (forall n | n in sets :: sets'[n] == sets[n] || (sets'[n] == sets[n].(aggregate := true) && n in names'))
    && forall n | n in names' && n !in names :: n in sets' && sets'[n].aggregate
  }

  lemma PassMarks(cfg: Config, server: string, sets0: Cluster, names0: seq<string>, sets: Cluster, names: seq<string>, flagged: set<string>, k: nat)
    requires PassUpTo(cfg, server, sets0, names0, sets, names, flagged, k) && forall n | n in flagged :: n in names
    ensures OnlyMarked(sets0, names0, sets, names)
    ensures forall m | 0 <= m < k && AggregateAt(cfg, sets0, names0, server, m) ::
              var base := MappingBase(cfg, sets0, names0, m);
              base in names && base in sets && sets[base].aggregate
  {
    hide MappingBase, MatchedSources, RecordedFamily, ListSum;
    forall n | n in flagged ensures n in sets {
      var m :| 0 <= m < k && n == MappingBase(cfg, sets0, names0, m) && AggregateAt(cfg, sets0, names0, server, m);
    }
  }

  lemma PassNoted(cfg: Config, server: string, sets0: Cluster, names0: seq<string>, sets: Cluster, names: seq<string>, flagged: set<string>, k: nat, base: string)
    requires PassUpTo(cfg, server, sets0, names0, sets, names, flagged, k) && base in flagged && base !in names
    ensures PassUpTo(cfg, server, sets0, names0, sets, names + [base], flagged, k)
  {
    hide FlagsUpTo, FlagsOnly;
  }

  lemma NotedPlaced(cfg: Config, server: string, sets0: Cluster, names0: seq<string>, sets: Cluster, names: seq<string>, flagged: set<string>, k: nat, n: string)
    requires PassUpTo(cfg, server, sets0, names0, sets, names, flagged, k)
    requires n in names && n in flagged
    ensures PlacedWithBase(cfg, sets0, names0, sets, names, n)
  {
    hide MappingBase;
    var m :| 0 <= m < k && n == MappingBase(cfg, sets0, names0, m) && AggregateAt(cfg, sets0, names0, server, m);
    assert InFamily(n, MappingBase(cfg, sets0, names0, m));
  }

  /** Whatever Step 1 has marked so far keeps the state consistent and the sources as they were. */
  lemma PassConsistent(cfg: Config, server: string, sets0: Cluster, names0: seq<string>, sets: Cluster, names: seq<string>, recorded: seq<string>, flagged: set<string>, k: nat)
    requires Ready(cfg, server) && NoSuffixCut(cfg) && Consistent(cfg, sets0, recorded, names0)
    requires PassUpTo(cfg, server, sets0, names0, sets, names, flagged, k)
    ensures Consistent(cfg, sets, recorded, names)
    ensures ByVCenter(sets, server) == ByVCenter(sets0, server) && Weights(sets) == Weights(sets0)
  {
    hide MappingBase, PlacedWithBase, FlagsUpTo, WellFormed, SharedSource, NoSuffixCut, RecordsSound;
    FlagsKeepWeights(sets0, sets, flagged);
    MarkedGrows(cfg, server, sets0, names0, sets, names, flagged, k);
    forall n | n in names && n !in names0 ensures PlacedWithBase(cfg, sets0, names0, sets, names, n) {
      NotedPlaced(cfg, server, sets0, names0, sets, names, flagged, k, n);
    }
    ConsistentGrows(cfg, sets0, recorded, names0, sets, names);
  }

  lemma PassAccepted(cfg: Config, server: string, sets0: Cluster, names0: seq<string>, sets: Cluster, names: seq<string>, recorded: seq<string>, flagged: set<string>)
    requires Ready(cfg, server) && NoSuffixCut(cfg) && Consistent(cfg, sets0, recorded, names0)
    requires PassUpTo(cfg, server, sets0, names0, sets, names, flagged, |cfg.mappings|)
    requires forall m | 0 <= m < |cfg.mappings| :: Passes(cfg, sets0, names0, server, m)
    ensures Settled(cfg, sets, names, server) && Accepts(cfg, sets0, names0)
  {
    hide Passes, FlagsUpTo, FlagsOnly, MappingPasses, NoSuffixCut, RecordsSound, MappingBase, Settled;
    PassSettles(cfg, server, sets0, names0, sets, names, flagged);
    forall m | 0 <= m < |cfg.mappings| ensures MappingPasses(cfg, sets0, names0, m) {
      PassesIsStepOne(cfg, sets0, names0, server, m);
    }
  }

  lemma RefusedMapping(cfg: Config, sets: Cluster, names: seq<string>, server: string, m: nat)
    requires Ready(cfg, server) && m < |cfg.mappings| && !Passes(cfg, sets, names, server, m)
    ensures !Accepts(cfg, sets, names)
  {
    hide Passes, MappingPasses;
    PassesIsStepOne(cfg, sets, names, server, m);
  }

  lemma AggregateIsReplacement(cfg: Config, sets: Cluster, names: seq<string>, server: string, m: nat)
    requires ValidCluster(sets) && m < |cfg.mappings| && AggregateAt(cfg, sets, names, server, m)
    ensures MappingBase(cfg, sets, names, m) in sets
    ensures IsReplacement(cfg, sets, MappingBase(cfg, sets, names, m))
  {
    var base := MappingBase(cfg, sets, names, m);
    FamilyOwned(cfg, sets, names, m, base);
    assert base in Replacements(cfg, sets, m);
  }

  method Merge(recorded: seq<string>, names: seq<string>) returns (r: seq<string>)
    ensures r == MergeNames(recorded, names)
  {
    r := recorded;
    for i := 0 to |names|
      invariant r == MergeNames(recorded, names[..i])
    {
      assert names[..i + 1][..i] == names[..i];
      if names[i] !in r {
        r := r + [names[i]];
      }
    }
    assert names[..|names|] == names;
  }

  // ----- The hypotheses can be met -----

  /** One failure domain to migrate from, one to migrate to, and a running worker MachineSet. */
  function SmallConfig(): Config {
    Config("c", [Pair("s", "d")], [FailureDomain("s", "old", "dc", "", "")], [FailureDomain("d", "new", "dc", "", "")])
  }

  function SmallCluster(): Cluster {
    map["w" := MachineSet(Some(3), Placed(Workspace("old", "dc", "")), "", false)]
  }

  lemma ShortNameUncut()
    ensures
      var full := FullName("c", "d");
      Truncate(full) == full && !IsSuffixed(full, full)
  {
    assert |Sanitize("d")| <= 1;
  }

  /** A migration can start: every hypothesis of the workload theorems holds of a small cluster that has work to do. */
  lemma SmallMigrationReady()
    ensures Ready(SmallConfig(), "old") && NoSuffixCut(SmallConfig())
    ensures Consistent(SmallConfig(), SmallCluster(), [], [])
    ensures "w" in Running("old", SmallCluster())
  {
    hide FullName, Truncate, MappingBase, IsSuffixed;
    ShortNameUncut();
    var cfg := SmallConfig();
    assert FindByName(cfg.infraFDs, "s") == Some(cfg.infraFDs[0]);
    assert FindByName(cfg.destFDs, "d") == Some(cfg.destFDs[0]);
    assert cfg.mappings[0] == Pair("s", "d");
    assert RecordSound(cfg, SmallCluster(), [], 0);
  }
}
