/**
 What Step 1 demands, in terms of the cluster alone: every expected name stands on its destination server,
 and no copy of a running source carries another source's name.
 */
module StepOne {
  import opened FailureDomains
  import opened Names
  import opened Sums
  import opened MachineSets
  import opened Capacity
  import opened Progress
  import opened Agreement

  /** Mapping m has one copy per source, and the copy of its running i-th source was made for another one. */
  ghost predicate SwappedCopy(cfg: Config, sets: Cluster, names: seq<string>, server: string, m: nat, i: nat) {
    && m < |cfg.mappings| && Destination(cfg, m).Some?
    && i < |MatchedSources(cfg, sets, server, m)|
    && var base, source := MappingBase(cfg, sets, names, m), MatchedSources(cfg, sets, server, m)[i];
    && Classify(sets, base, MatchedSources(cfg, sets, server, m), Destination(cfg, m).value.server, names) == Ok(PerSource)
    && source in sets && Desired(sets[source]) > 0
    && CopyName(base, i) in sets && sets[CopyName(base, i)].copyOf != "" && sets[CopyName(base, i)].copyOf != source
  }

  lemma NoSwapInMapping(cfg: Config, sets: Cluster, names: seq<string>, server: string, m: nat)
    requires m < |cfg.mappings|
    ensures Passes(cfg, sets, names, server, m) <==>
              MappingRecovers(cfg, sets, names, server, m) && forall i :: !SwappedCopy(cfg, sets, names, server, m, i)
  {
    hide MappingBase, CopyName, MatchedSources, RecordedFamily, FirstCopyProblem, Sum, ListSum;
    var base, sources := MappingBase(cfg, sets, names, m), MatchedSources(cfg, sets, server, m);
    if Destination(cfg, m).Some? && !(sources == [] && RecordedFamily(names, base) == []) {
      var dest := Destination(cfg, m).value.server;
      ExpectedLayout(sets, base, sources, dest, names);
      if Expected(sets, base, sources, dest, names).Ok? && Classify(sets, base, sources, dest, names) == Ok(PerSource) {
        SwapBreaksIdentity(cfg, sets, names, server, m);
      }
    }
  }

  lemma ExpectedLayout(sets: Cluster, base: string, sources: seq<string>, server: string, recorded: seq<string>)
    ensures Expected(sets, base, sources, server, recorded).Ok? ==>
              && Classify(sets, base, sources, server, recorded).Ok? && Classify(sets, base, sources, server, recorded) != Ok(Ambiguous)
              && (Expected(sets, base, sources, server, recorded).value.aggregate <==> Classify(sets, base, sources, server, recorded) == Ok(Aggregate))
  {
    hide Classify;
  }

  lemma SwapBreaksIdentity(cfg: Config, sets: Cluster, names: seq<string>, server: string, m: nat)
    requires m < |cfg.mappings| && Destination(cfg, m).Some?
    requires Classify(sets, MappingBase(cfg, sets, names, m), MatchedSources(cfg, sets, server, m), Destination(cfg, m).value.server, names) == Ok(PerSource)
    ensures IdentityHolds(sets, MappingBase(cfg, sets, names, m), MatchedSources(cfg, sets, server, m)) <==>
              forall i :: !SwappedCopy(cfg, sets, names, server, m, i)
  {
    hide MappingBase, CopyName, MatchedSources, Classify;
    var base, sources := MappingBase(cfg, sets, names, m), MatchedSources(cfg, sets, server, m);
    forall i: nat | i < |sources| ensures IdentityAt(sets, base, sources, i) <==> !SwappedCopy(cfg, sets, names, server, m, i) {
    }
  }

  /**
   Step 1 accepts exactly if every expected name stands where it should and no copy is swapped: what it asks
   for beyond recovery is identity, and nothing else.
   */
  lemma StepOneIsIdentity(cfg: Config, sets: Cluster, names: seq<string>, server: string)
    requires Ready(cfg, server)
    ensures Accepts(cfg, sets, names) <==>
              Recovers(cfg, sets, names, server) && forall m, i :: !SwappedCopy(cfg, sets, names, server, m, i)
  {
    hide MappingPasses, Passes, MappingRecovers, SwappedCopy, Ready;
    forall m | 0 <= m < |cfg.mappings|
      ensures MappingPasses(cfg, sets, names, m) <==>
                MappingRecovers(cfg, sets, names, server, m) && forall i :: !SwappedCopy(cfg, sets, names, server, m, i)
    {
      PassesIsStepOne(cfg, sets, names, server, m);
      NoSwapInMapping(cfg, sets, names, server, m);
    }
    if Accepts(cfg, sets, names) {
      forall m: nat, i: nat ensures !SwappedCopy(cfg, sets, names, server, m, i) {
        if m < |cfg.mappings| {
          assert MappingPasses(cfg, sets, names, m);
        } else {
          NoSwapBeyond(cfg, sets, names, server, m, i);
        }
      }
      forall m | 0 <= m < |cfg.mappings| ensures MappingRecovers(cfg, sets, names, server, m) {
        assert MappingPasses(cfg, sets, names, m);
      }
    }
  }

  /** The i-th source of mapping m runs, and its copy is a MachineSet of its own. */
  ghost predicate RunningPair(cfg: Config, sets: Cluster, names: seq<string>, server: string, m: nat, i: nat) {
    && m < |cfg.mappings| && Destination(cfg, m).Some?
    && i < |MatchedSources(cfg, sets, server, m)|
    && Classify(sets, MappingBase(cfg, sets, names, m), MatchedSources(cfg, sets, server, m), Destination(cfg, m).value.server, names) == Ok(PerSource)
    && MatchedSources(cfg, sets, server, m)[i] in sets && Desired(sets[MatchedSources(cfg, sets, server, m)[i]]) > 0
  }

  /**
   In a state Step 1 accepts, the copy of a running source stands on the destination server under the name
   generated for the source's position, is at least as large, and carries no identity or the source's own.
   */
  lemma AcceptedCopyIsItsOwn(cfg: Config, sets: Cluster, names: seq<string>, server: string, m: nat, i: nat)
    requires Ready(cfg, server) && Accepts(cfg, sets, names) && RunningPair(cfg, sets, names, server, m, i)
    ensures
      var source, copy := MatchedSources(cfg, sets, server, m)[i], CopyName(MappingBase(cfg, sets, names, m), i);
      && OnServer(sets, copy, Destination(cfg, m).value.server)
      && Desired(sets[copy]) >= Desired(sets[source])
      && sets[copy].copyOf in {"", source}
  {
    hide MappingBase, CopyName, MatchedSources, RecordedFamily, Classify, Ready;
    var base, sources := MappingBase(cfg, sets, names, m), MatchedSources(cfg, sets, server, m);
    StepOneIsIdentity(cfg, sets, names, server);
    assert !SwappedCopy(cfg, sets, names, server, m, i);
    assert MappingRecovers(cfg, sets, names, server, m);
    assert CopyName(base, i) in CopyNames(base, |sources|);
    assert CopyProblem(sets, base, sources, Destination(cfg, m).value.server, i).None?;
  }

  /** No two running sources share a copy's identity. */
  lemma IdentitiesApart(cfg: Config, sets: Cluster, names: seq<string>, server: string, m: nat, i: nat, k: nat, j: nat)
    requires Ready(cfg, server) && Accepts(cfg, sets, names)
    requires RunningPair(cfg, sets, names, server, m, i) && RunningPair(cfg, sets, names, server, k, j)
    requires MatchedSources(cfg, sets, server, m)[i] != MatchedSources(cfg, sets, server, k)[j]
    ensures
      var a, b := CopyName(MappingBase(cfg, sets, names, m), i), CopyName(MappingBase(cfg, sets, names, k), j);
      && a in sets && b in sets
      && (sets[a].copyOf == sets[b].copyOf ==> sets[a].copyOf == "")
  {
    hide MappingBase, CopyName, MatchedSources, Classify, Ready, Accepts;
    AcceptedCopyIsItsOwn(cfg, sets, names, server, m, i);
    AcceptedCopyIsItsOwn(cfg, sets, names, server, k, j);
  }

  lemma NoSwapBeyond(cfg: Config, sets: Cluster, names: seq<string>, server: string, m: nat, i: nat)
    requires m >= |cfg.mappings|
    ensures !SwappedCopy(cfg, sets, names, server, m, i)
  {
  }

  /**
   What recovery finds in place for one mapping: every recorded name of its family stands on the destination,
   and so does, for its sources, one copy each that is large enough, or a base that holds them all.
   */
  lemma RecoveredStands(cfg: Config, sets: Cluster, names: seq<string>, server: string, m: nat)
    requires m < |cfg.mappings| && MappingRecovers(cfg, sets, names, server, m)
    ensures Destination(cfg, m).Some?
    ensures
      var base, sources, dest := MappingBase(cfg, sets, names, m), MatchedSources(cfg, sets, server, m), Destination(cfg, m).value.server;
      && (forall n | n in names && InFamily(n, base) :: OnServer(sets, n, dest))
      && (|| (forall i | 0 <= i < |sources| :: OnServer(sets, CopyName(base, i), dest) && Desired(sets[CopyName(base, i)]) >= At(Weights(sets), sources[i]))
          || (OnServer(sets, base, dest) && Desired(sets[base]) >= ListSum(Weights(sets), sources)))
  {
    hide MappingBase, MatchedSources, CopyName, InFamily, ListSum, OnServer;
    var base, sources, dest := MappingBase(cfg, sets, names, m), MatchedSources(cfg, sets, server, m), Destination(cfg, m).value.server;
    forall n | n in names && InFamily(n, base) ensures OnServer(sets, n, dest) {
      assert n in RecordedFamily(names, base);
    }
    if sources != [] {
      SourcesStand(sets, base, sources, dest, names);
    }
  }

  lemma SourcesStand(sets: Cluster, base: string, sources: seq<string>, dest: string, names: seq<string>)
    requires Expected(sets, base, sources, dest, names).Ok?
    requires AllOnServer(sets, Expected(sets, base, sources, dest, names).value.names, dest)
    ensures
      || (forall i | 0 <= i < |sources| :: OnServer(sets, CopyName(base, i), dest) && Desired(sets[CopyName(base, i)]) >= At(Weights(sets), sources[i]))
      || (OnServer(sets, base, dest) && Desired(sets[base]) >= ListSum(Weights(sets), sources))
  {
    hide CopyName, RecordedFamily, ListSum;
    if Classify(sets, base, sources, dest, names) == Ok(PerSource) {
      forall i | 0 <= i < |sources|
        ensures OnServer(sets, CopyName(base, i), dest) && Desired(sets[CopyName(base, i)]) >= At(Weights(sets), sources[i])
      {
        assert CopyName(base, i) in CopyNames(base, |sources|);
        assert CopyProblem(sets, base, sources, dest, i).None?;
      }
    }
  }

  /** The same holds of every mapping once Step 1 has accepted. */
  lemma AcceptedStands(cfg: Config, sets: Cluster, names: seq<string>, server: string, m: nat)
    requires Ready(cfg, server) && Accepts(cfg, sets, names) && m < |cfg.mappings|
    ensures Destination(cfg, m).Some?
    ensures
      var base, sources, dest := MappingBase(cfg, sets, names, m), MatchedSources(cfg, sets, server, m), Destination(cfg, m).value.server;
      && (forall n | n in names && InFamily(n, base) :: OnServer(sets, n, dest))
      && (|| (forall i | 0 <= i < |sources| :: OnServer(sets, CopyName(base, i), dest) && Desired(sets[CopyName(base, i)]) >= At(Weights(sets), sources[i]))
          || (OnServer(sets, base, dest) && Desired(sets[base]) >= ListSum(Weights(sets), sources)))
  {
    hide MappingRecovers, Accepts, Ready, MappingBase, MatchedSources, CopyName, InFamily, OnServer;
    AcceptedRecovers(cfg, server, sets, names);
    RecoveredStands(cfg, sets, names, server, m);
  }
}
