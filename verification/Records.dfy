/**
 The recorded destination names stay consistent with the cluster through creation, marking, recovery,
 scale-down and deletion, both the published list and the list in a reconcile's memory.
 */
module Records {
  import opened FailureDomains
  import opened Names
  import opened Sums
  import opened MachineSets
  import opened Capacity
  import opened Progress
  import opened Agreement

  /** Memory extends the published list, both are sound, and both resolve the same bases. */
  ghost predicate Consistent(cfg: Config, sets: Cluster, recorded: seq<string>, names: seq<string>) {
    && ValidCluster(sets)
    && recorded <= names
    && Distinct(names)
    && RecordsSound(cfg, sets, recorded)
    && RecordsSound(cfg, sets, names)
    && forall m | 0 <= m < |cfg.mappings| :: MappingBase(cfg, sets, recorded, m) == MappingBase(cfg, sets, names, m)
  }

  /** A new name stands on the destination server of a mapping whose base is known too. */
  ghost predicate PlacedWithBase(cfg: Config, sets: Cluster, names: seq<string>, sets': Cluster, names': seq<string>, n: string) {
    exists m | 0 <= m < |cfg.mappings| ::
      && InFamily(n, MappingBase(cfg, sets, names, m))
      && Destination(cfg, m).Some? && OnServer(sets', n, Destination(cfg, m).value.server)
      && MappingBase(cfg, sets, names, m) in names'
  }

  /** The cluster grows by generated names, keeps every placement, and records only placed names. */
  ghost predicate SoundGrowth(cfg: Config, sets: Cluster, names: seq<string>, sets': Cluster, names': seq<string>) {
    && GrownBy(cfg, sets, names, sets', names')
    && (forall n | n in sets :: sets'[n].provider == sets[n].provider)
    && forall n | n in names' && n !in names :: PlacedWithBase(cfg, sets, names, sets', names', n)
  }

  lemma GrowthKeepsRecord(cfg: Config, sets: Cluster, names: seq<string>, sets': Cluster, names': seq<string>, m: nat)
    requires WellFormed(cfg) && NoSuffixCut(cfg) && ValidCluster(sets) && m < |cfg.mappings|
    requires SoundGrowth(cfg, sets, names, sets', names') && RecordSound(cfg, sets, names, m)
    ensures RecordSound(cfg, sets', names', m)
  {
    var base := MappingBase(cfg, sets, names, m);
    BaseStable(cfg, sets, names, sets', names', m);
    var family := RecordedFamily(names', base);
    forall n | n in family ensures OnServer(sets', n, Destination(cfg, m).value.server) && base in names' {
      GrownRecordPlaced(cfg, sets, names, sets', names', m, n);
    }
    assert family != [] ==> family[0] in family;
  }

  lemma GrownRecordPlaced(cfg: Config, sets: Cluster, names: seq<string>, sets': Cluster, names': seq<string>, m: nat, n: string)
    requires WellFormed(cfg) && ValidCluster(sets) && m < |cfg.mappings|
    requires SoundGrowth(cfg, sets, names, sets', names') && RecordSound(cfg, sets, names, m)
    requires n in RecordedFamily(names', MappingBase(cfg, sets, names, m))
    ensures OnServer(sets', n, Destination(cfg, m).value.server) && MappingBase(cfg, sets, names, m) in names'
  {
    if n in names {
      assert n in RecordedFamily(names, MappingBase(cfg, sets, names, m));
    } else {
      assert PlacedWithBase(cfg, sets, names, sets', names', n);
      var k :| && 0 <= k < |cfg.mappings|
               && InFamily(n, MappingBase(cfg, sets, names, k))
               && Destination(cfg, k).Some? && OnServer(sets', n, Destination(cfg, k).value.server)
               && MappingBase(cfg, sets, names, k) in names';
      SameOwner(cfg, sets, names, k, m, n);
    }
  }

  lemma GrowthKeepsRecords(cfg: Config, sets: Cluster, names: seq<string>, sets': Cluster, names': seq<string>)
    requires WellFormed(cfg) && NoSuffixCut(cfg) && ValidCluster(sets)
    requires SoundGrowth(cfg, sets, names, sets', names') && RecordsSound(cfg, sets, names)
    ensures RecordsSound(cfg, sets', names')
  {
    forall m | 0 <= m < |cfg.mappings| ensures RecordSound(cfg, sets', names', m) {
      assert RecordSound(cfg, sets, names, m);
      GrowthKeepsRecord(cfg, sets, names, sets', names', m);
    }
  }

  /** Growth recorded in memory only is also sound growth for the published list. */
  lemma GrowthForPublished(cfg: Config, sets: Cluster, recorded: seq<string>, names: seq<string>, sets': Cluster, names': seq<string>)
    requires Consistent(cfg, sets, recorded, names) && SoundGrowth(cfg, sets, names, sets', names')
    ensures SoundGrowth(cfg, sets, recorded, sets', recorded)
  {
    forall n | n in sets' && n !in sets ensures InSomeFamily(cfg, sets, recorded, n) {
      var k :| 0 <= k < |cfg.mappings| && InFamily(n, MappingBase(cfg, sets, names, k));
      assert InFamily(n, MappingBase(cfg, sets, recorded, k));
    }
  }

  lemma ConsistentGrows(cfg: Config, sets: Cluster, recorded: seq<string>, names: seq<string>, sets': Cluster, names': seq<string>)
    requires WellFormed(cfg) && NoSuffixCut(cfg)
    requires Consistent(cfg, sets, recorded, names) && SoundGrowth(cfg, sets, names, sets', names')
    requires names <= names' && Distinct(names')
    ensures Consistent(cfg, sets', recorded, names')
  {
    GrowthKeepsRecords(cfg, sets, names, sets', names');
    GrowthForPublished(cfg, sets, recorded, names, sets', names');
    GrowthKeepsRecords(cfg, sets, recorded, sets', recorded);
    forall m | 0 <= m < |cfg.mappings| ensures MappingBase(cfg, sets', recorded, m) == MappingBase(cfg, sets', names', m) {
      BaseStable(cfg, sets, names, sets', names', m);
      BaseStable(cfg, sets, recorded, sets', recorded, m);
      assert MappingBase(cfg, sets, recorded, m) == MappingBase(cfg, sets, names, m);
    }
  }

  /** Publishing makes memory durable. */
  lemma ConsistentPublished(cfg: Config, sets: Cluster, recorded: seq<string>, names: seq<string>)
    requires Consistent(cfg, sets, recorded, names)
    ensures MergeNames(recorded, names) == names
    ensures Consistent(cfg, sets, names, names)
    ensures Consistent(cfg, sets, recorded, recorded)
  {
    MergeExtends(recorded, names);
  }

  lemma {:induction false} MergeExtends(recorded: seq<string>, names: seq<string>)
    requires recorded <= names && Distinct(names)
    ensures MergeNames(recorded, names) == names
    decreases |names|
  {
    hide Elements;
    if recorded == names {
      MergeNothingNew(recorded, names);
    } else {
      var front, last := names[..|names| - 1], names[|names| - 1];
      assert recorded <= front && Distinct(front) && last !in front;
      MergeExtends(recorded, front);
    }
  }

  /** Lowering or pruning sources keeps a published, sound list sound. */
  lemma CleanupKeepsRecord(cfg: Config, server: string, a: Cluster, b: Cluster, names: seq<string>, m: nat)
    requires Sourced(cfg, server) && m < |cfg.mappings| && RecordSound(cfg, a, names, m) && InterruptedCleanup(server, a, b)
    ensures RecordSound(cfg, b, names, m)
  {
    var x, y := MappingBase(cfg, a, names, m), MappingBase(cfg, b, names, m);
    var dest := Destination(cfg, m).value.server;
    assert IsDestination(cfg, dest);
    if Lowered(server, a, b) {
      assert x == y;
    } else {
      PrunedBase(cfg, server, a, b, names, m);
    }
    forall n | n in RecordedFamily(names, y) ensures OnServer(b, n, dest) {
      assert x == y;
      assert OnServer(a, n, dest);
    }
    assert RecordedFamily(names, y) != [] ==> x == y;
  }

  lemma CleanupKeepsConsistent(cfg: Config, server: string, a: Cluster, b: Cluster, names: seq<string>)
    requires Sourced(cfg, server) && Consistent(cfg, a, names, names) && InterruptedCleanup(server, a, b)
    ensures Consistent(cfg, b, names, names)
  {
    forall m | 0 <= m < |cfg.mappings| ensures RecordSound(cfg, b, names, m) {
      assert RecordSound(cfg, a, names, m);
      CleanupKeepsRecord(cfg, server, a, b, names, m);
    }
    assert ValidCluster(b) by {
      assert forall n | n in b :: n in a;
    }
  }

  // ----- Ready nodes -----

  /** The MachineSets of mapping m's resolved family. */
  ghost function Family(cfg: Config, sets: Cluster, names: seq<string>, m: nat): set<string>
    requires m < |cfg.mappings|
  {
    set n | n in sets && InFamily(n, MappingBase(cfg, sets, names, m))
  }

  ghost function FamiliesUpTo(cfg: Config, sets: Cluster, names: seq<string>, k: nat): set<string>
    requires k <= |cfg.mappings|
  {
    if k == 0 then {} else FamiliesUpTo(cfg, sets, names, k - 1) + Family(cfg, sets, names, k - 1)
  }

  lemma FamilyOfOne(cfg: Config, sets: Cluster, names: seq<string>, i: nat, j: nat)
    requires WellFormed(cfg) && ValidCluster(sets) && i < j < |cfg.mappings|
    ensures Family(cfg, sets, names, i) !! Family(cfg, sets, names, j)
  {
    forall n | n in Family(cfg, sets, names, i) && n in Family(cfg, sets, names, j) ensures false {
      SameOwner(cfg, sets, names, i, j, n);
    }
  }

  lemma UnionApart(a: set<string>, b: set<string>, c: set<string>)
    requires a !! c && b !! c
    ensures a + b !! c
  {
  }

  lemma {:induction false} FamiliesDisjoint(cfg: Config, sets: Cluster, names: seq<string>, k: nat, m: nat)
    requires WellFormed(cfg) && ValidCluster(sets) && k <= m < |cfg.mappings|
    ensures FamiliesUpTo(cfg, sets, names, k) !! Family(cfg, sets, names, m)
  {
    hide MappingBase;
    if k > 0 {
      FamiliesDisjoint(cfg, sets, names, k - 1, m);
      FamilyOfOne(cfg, sets, names, k - 1, m);
      UnionApart(FamiliesUpTo(cfg, sets, names, k - 1), Family(cfg, sets, names, k - 1), Family(cfg, sets, names, m));
    }
  }

  lemma FamilyHoldsSources(cfg: Config, sets: Cluster, names: seq<string>, server: string, m: nat)
    requires m < |cfg.mappings| && MappingRecovers(cfg, sets, names, server, m)
    ensures Sum(Weights(sets), Matched(cfg, sets, server, m)) <= Sum(Weights(sets), Family(cfg, sets, names, m))
  {
    var w, base := Weights(sets), MappingBase(cfg, sets, names, m);
    var sources, dest := MatchedSources(cfg, sets, server, m), Destination(cfg, m).value.server;
    ListSumIsSum(w, sources);
    if !(sources == [] && RecordedFamily(names, base) == []) {
      ExpectedHoldsCapacity(sets, base, sources, dest, names);
      var expected := Expected(sets, base, sources, dest, names).value.names;
      forall n | n in expected ensures n in Family(cfg, sets, names, m) {
        ExpectedInFamily(sets, base, sources, dest, names, n);
      }
      SumSubset(w, expected, Family(cfg, sets, names, m));
    }
  }

  /** Every MachineSet of a mapping that has sources has at least as many ready nodes as desired replicas. */
  ghost predicate NodesReady(cfg: Config, sets: Cluster, names: seq<string>, server: string, ready: map<string, nat>) {
    forall m, n | 0 <= m < |cfg.mappings| && Matched(cfg, sets, server, m) != {} && n in Family(cfg, sets, names, m) ::
      At(Weights(sets), n) <= At(ready, n)
  }

  lemma {:induction false} ReadySums(cfg: Config, sets: Cluster, names: seq<string>, server: string, ready: map<string, nat>, k: nat)
    requires WellFormed(cfg) && ValidCluster(sets) && k <= |cfg.mappings|
    requires Recovers(cfg, sets, names, server) && NodesReady(cfg, sets, names, server, ready)
    ensures Sum(Weights(sets), MatchedUpTo(cfg, sets, server, k)) <= Sum(ready, FamiliesUpTo(cfg, sets, names, k))
  {
    hide WellFormed, ValidCluster, MappingRecovers, Sum, Family, Matched, Weights;
    if k > 0 {
      var m, w := k - 1, Weights(sets);
      ReadySums(cfg, sets, names, server, ready, m);
      SumUnionBound(w, MatchedUpTo(cfg, sets, server, m), Matched(cfg, sets, server, m));
      FamiliesDisjoint(cfg, sets, names, m, m);
      SumUnion(ready, FamiliesUpTo(cfg, sets, names, m), Family(cfg, sets, names, m));
      assert MappingRecovers(cfg, sets, names, server, m);
      FamilyHoldsSources(cfg, sets, names, server, m);
      MappingNodes(cfg, sets, names, server, ready, m);
    } else {
      NothingMatched(cfg, sets, server);
    }
  }

  lemma NothingMatched(cfg: Config, sets: Cluster, server: string)
    ensures Sum(Weights(sets), MatchedUpTo(cfg, sets, server, 0)) == 0
  {
  }

  lemma MappingNodes(cfg: Config, sets: Cluster, names: seq<string>, server: string, ready: map<string, nat>, m: nat)
    requires m < |cfg.mappings| && NodesReady(cfg, sets, names, server, ready)
    requires Sum(Weights(sets), Matched(cfg, sets, server, m)) <= Sum(Weights(sets), Family(cfg, sets, names, m))
    ensures Sum(Weights(sets), Matched(cfg, sets, server, m)) <= Sum(ready, Family(cfg, sets, names, m))
  {
    hide Family, Matched, Weights;
    if Matched(cfg, sets, server, m) != {} {
      SumMonotone(Weights(sets), ready, Family(cfg, sets, names, m));
    }
  }

  /**
   The ready nodes of the destination families are at least the replicas scale-down is about to remove:
   what serves already covers what goes away, provided readiness and the gate saw the same cluster.
   */
  lemma ReadyNodesCoverSources(cfg: Config, sets: Cluster, names: seq<string>, names': seq<string>, server: string, ready: map<string, nat>)
    requires WellFormed(cfg) && ValidCluster(sets)
    requires Recovers(cfg, sets, names, server) && CoverageHolds(cfg, sets, names', server)
    requires NodesReady(cfg, sets, names, server, ready)
    ensures Sum(Weights(sets), ByVCenter(sets, server)) <= Sum(ready, FamiliesUpTo(cfg, sets, names, |cfg.mappings|))
  {
    GateIsSound(cfg, sets, names, names', server);
    SelectedHoldAll(cfg, server, sets);
    ReadySums(cfg, sets, names, server, ready, |cfg.mappings|);
  }
}
