/**
 Step 1 annotates the aggregates it detects and notes their base, one mapping after the other. Marking
 one mapping's aggregate does not change what Step 1 decides for another, so a full pass leaves a
 settled state.
 */
module Marking {
  import opened FailureDomains
  import opened Names
  import opened Sums
  import opened MachineSets
  import opened Capacity
  import opened Progress
  import opened Agreement

  /** b is a with the legacy-aggregate annotation added to the flagged MachineSets. */
  ghost predicate FlagsOnly(a: Cluster, b: Cluster, flagged: set<string>) {
    && a.Keys == b.Keys
    && forall n | n in a :: b[n] == if n in flagged then a[n].(aggregate := true) else a[n]
  }

  lemma FlagsKeepWeights(a: Cluster, b: Cluster, flagged: set<string>)
    requires FlagsOnly(a, b, flagged)
    ensures Weights(b) == Weights(a)
    ensures forall n, server :: OnServer(b, n, server) == OnServer(a, n, server)
  {
  }

  lemma FlagsKeepSources(cfg: Config, server: string, a: Cluster, b: Cluster, flagged: set<string>, m: nat)
    requires FlagsOnly(a, b, flagged) && m < |cfg.mappings|
    ensures MatchedSources(cfg, b, server, m) == MatchedSources(cfg, a, server, m)
  {
    assert Matched(cfg, b, server, m) == Matched(cfg, a, server, m);
  }

  lemma FlagsKeepCopies(a: Cluster, b: Cluster, flagged: set<string>, base: string, sources: seq<string>, dest: string)
    requires FlagsOnly(a, b, flagged)
    ensures FirstCopyProblem(a, base, sources, dest, |sources|).None? <==> FirstCopyProblem(b, base, sources, dest, |sources|).None?
    ensures IdentityHolds(a, base, sources) <==> IdentityHolds(b, base, sources)
  {
    FlagsKeepWeights(a, b, flagged);
    forall i | 0 <= i < |sources|
      ensures CopyProblem(a, base, sources, dest, i) == CopyProblem(b, base, sources, dest, i)
      ensures IdentityAt(a, base, sources, i) == IdentityAt(b, base, sources, i)
    {
    }
  }

  /** Flags on other MachineSets do not matter for the mapping whose base is not flagged. */
  lemma FlagsElsewhere(a: Cluster, b: Cluster, flagged: set<string>, base: string, sources: seq<string>, dest: string, names: seq<string>)
    requires FlagsOnly(a, b, flagged) && base !in flagged
    ensures Classify(b, base, sources, dest, names) == Classify(a, base, sources, dest, names)
    ensures ExpectationMet(b, base, sources, dest, names) <==> ExpectationMet(a, base, sources, dest, names)
    ensures ExpectationBroken(b, base, sources, dest, names) <==> ExpectationBroken(a, base, sources, dest, names)
  {
    hide FirstCopyProblem, CopyName, IdentityHolds, RecordedFamily, ListSum;
    FlagsKeepWeights(a, b, flagged);
    FlagsKeepCopies(a, b, flagged, base, sources, dest);
    assert forall i | 1 <= i < |sources| :: CopyName(base, i) in a <==> CopyName(base, i) in b;
  }

  /** Mapping m is accepted as an aggregate with something to stand for. */
  ghost predicate AggregateAt(cfg: Config, sets: Cluster, names: seq<string>, server: string, m: nat)
    requires m < |cfg.mappings|
  {
    var base, sources := MappingBase(cfg, sets, names, m), MatchedSources(cfg, sets, server, m);
    && Destination(cfg, m).Some?
    && !(sources == [] && RecordedFamily(names, base) == [])
    && Classify(sets, base, sources, Destination(cfg, m).value.server, names) == Ok(Aggregate)
  }

  lemma UnflaggedMapping(cfg: Config, server: string, a: Cluster, b: Cluster, flagged: set<string>, names: seq<string>, m: nat)
    requires FlagsOnly(a, b, flagged) && m < |cfg.mappings| && MappingBase(cfg, a, names, m) !in flagged
    ensures MappingBase(cfg, b, names, m) == MappingBase(cfg, a, names, m)
    ensures Passes(cfg, b, names, server, m) <==> Passes(cfg, a, names, server, m)
    ensures AggregateAt(cfg, b, names, server, m) <==> AggregateAt(cfg, a, names, server, m)
    ensures Fails(cfg, b, names, server, m) <==> Fails(cfg, a, names, server, m)
  {
    hide ExpectationMet, ExpectationBroken, Classify, Matches;
    FlagsKeepSources(cfg, server, a, b, flagged, m);
    assert forall n :: n in a <==> n in b;
    if Destination(cfg, m).Some? {
      FlagsElsewhere(a, b, flagged, MappingBase(cfg, a, names, m), MatchedSources(cfg, a, server, m), Destination(cfg, m).value.server, names);
    }
  }

  /** The flagged names are bases of aggregates, and exactly the bases of the first k mappings that are aggregates. */
  ghost predicate FlagsUpTo(cfg: Config, sets: Cluster, names: seq<string>, server: string, flagged: set<string>, k: nat)
    requires k <= |cfg.mappings|
  {
    && (forall m | 0 <= m < k :: AggregateAt(cfg, sets, names, server, m) ==> MappingBase(cfg, sets, names, m) in flagged)
    && (forall n | n in flagged ::
          exists m | 0 <= m < k :: n == MappingBase(cfg, sets, names, m) && AggregateAt(cfg, sets, names, server, m))
  }

  lemma LaterBaseUnflagged(cfg: Config, server: string, sets: Cluster, names: seq<string>, flagged: set<string>, k: nat)
    requires WellFormed(cfg) && ValidCluster(sets) && k < |cfg.mappings|
    requires FlagsUpTo(cfg, sets, names, server, flagged, k)
    ensures MappingBase(cfg, sets, names, k) !in flagged
  {
    var base := MappingBase(cfg, sets, names, k);
    if base in flagged {
      var m :| 0 <= m < k && base == MappingBase(cfg, sets, names, m);
      SameOwner(cfg, sets, names, m, k, base);
    }
  }

  lemma FlagsExtend(cfg: Config, server: string, sets: Cluster, names: seq<string>, flagged: set<string>, k: nat, aggregate: bool) returns (flagged': set<string>)
    requires k < |cfg.mappings| && FlagsUpTo(cfg, sets, names, server, flagged, k)
    requires aggregate <==> AggregateAt(cfg, sets, names, server, k)
    ensures flagged' == if aggregate then flagged + {MappingBase(cfg, sets, names, k)} else flagged
    ensures FlagsUpTo(cfg, sets, names, server, flagged', k + 1)
  {
    flagged' := if aggregate then flagged + {MappingBase(cfg, sets, names, k)} else flagged;
    forall n | n in flagged'
      ensures exists m | 0 <= m < k + 1 :: n == MappingBase(cfg, sets, names, m) && AggregateAt(cfg, sets, names, server, m)
    {
      if n in flagged {
        var m :| 0 <= m < k && n == MappingBase(cfg, sets, names, m) && AggregateAt(cfg, sets, names, server, m);
      }
    }
  }

  // ----- The state after a full pass -----

  /** The whole effect of a Step 1 pass that found everything in place. */
  ghost predicate MarkedPass(cfg: Config, server: string, sets: Cluster, names: seq<string>, sets': Cluster, names': seq<string>, flagged: set<string>) {
    && FlagsOnly(sets, sets', flagged)
    && FlagsUpTo(cfg, sets, names, server, flagged, |cfg.mappings|)
    && names <= names'
    && (forall n | n in names' && n !in names :: n in flagged)
    && forall m | 0 <= m < |cfg.mappings| :: Passes(cfg, sets, names, server, m)
  }

  lemma FlaggedInFamily(cfg: Config, server: string, sets: Cluster, names: seq<string>, flagged: set<string>, k: nat, n: string)
    requires k <= |cfg.mappings| && FlagsUpTo(cfg, sets, names, server, flagged, k) && n in flagged
    ensures InSomeFamily(cfg, sets, names, n)
  {
    var m :| 0 <= m < k && n == MappingBase(cfg, sets, names, m);
    assert InFamily(n, MappingBase(cfg, sets, names, m));
  }

  lemma MarkedGrows(cfg: Config, server: string, sets: Cluster, names: seq<string>, sets': Cluster, names': seq<string>, flagged: set<string>, k: nat)
    requires ValidCluster(sets) && k <= |cfg.mappings|
    requires FlagsOnly(sets, sets', flagged) && FlagsUpTo(cfg, sets, names, server, flagged, k)
    requires names <= names' && forall n | n in names' && n !in names :: n in flagged
    ensures GrownBy(cfg, sets, names, sets', names')
  {
    forall n | n in names' && n !in names ensures InSomeFamily(cfg, sets, names, n) {
      FlaggedInFamily(cfg, server, sets, names, flagged, k, n);
    }
  }

  /** A flagged name in mapping m's family is mapping m's base, and mapping m is an aggregate. */
  lemma FlaggedIsBase(cfg: Config, server: string, sets: Cluster, names: seq<string>, flagged: set<string>, k: nat, m: nat, n: string)
    requires WellFormed(cfg) && ValidCluster(sets) && k <= |cfg.mappings| && m < |cfg.mappings|
    requires FlagsUpTo(cfg, sets, names, server, flagged, k) && n in flagged && InFamily(n, MappingBase(cfg, sets, names, m))
    ensures n == MappingBase(cfg, sets, names, m) && AggregateAt(cfg, sets, names, server, m)
  {
    var j :| 0 <= j < k && n == MappingBase(cfg, sets, names, j) && AggregateAt(cfg, sets, names, server, j);
    SameOwner(cfg, sets, names, j, m, n);
  }

  lemma {:induction false} RecordedFamilySkips(names: seq<string>, names': seq<string>, base: string)
    requires names <= names'
    requires forall n | n in names' && n !in names :: !InFamily(n, base)
    requires Distinct(names')
    ensures RecordedFamily(names', base) == RecordedFamily(names, base)
    decreases |names'|
  {
    if names != names' {
      var front, last := names'[..|names'| - 1], names'[|names'| - 1];
      assert names' == front + [last];
      assert last !in front && names <= front;
      RecordedFamilySkips(names, front, base);
    }
  }

  /** An aggregate that is accepted stays accepted once it is annotated and its base is recorded. */
  lemma AnnotatedExpectation(sets: Cluster, sets': Cluster, flagged: set<string>, base: string, sources: seq<string>, dest: string, names: seq<string>, names': seq<string>)
    requires FlagsOnly(sets, sets', flagged) && base in flagged
    requires Classify(sets, base, sources, dest, names) == Ok(Aggregate) && ExpectationMet(sets, base, sources, dest, names)
    requires forall n | n in RecordedFamily(names', base) :: n in RecordedFamily(names, base) || n == base
    ensures Classify(sets', base, sources, dest, names') == Ok(Aggregate) && sets'[base].aggregate
    ensures ExpectationMet(sets', base, sources, dest, names')
  {
    FlagsKeepWeights(sets, sets', flagged);
    assert OnServer(sets, base, dest);
    forall n | n in Elements(RecordedFamily(names', base)) + {base} ensures OnServer(sets', n, dest) {
      assert n in Expected(sets, base, sources, dest, names).value.names;
    }
  }

  lemma MarkedMappingSettled(cfg: Config, server: string, sets: Cluster, names: seq<string>, sets': Cluster, names': seq<string>, flagged: set<string>, m: nat)
    requires WellFormed(cfg) && NoSuffixCut(cfg) && ValidCluster(sets) && Distinct(names') && m < |cfg.mappings|
    requires MarkedPass(cfg, server, sets, names, sets', names', flagged)
    ensures Passes(cfg, sets', names', server, m) && AggregateMarked(cfg, sets', names', server, m)
  {
    var base, sources := MappingBase(cfg, sets, names, m), MatchedSources(cfg, sets, server, m);
    assert Passes(cfg, sets, names, server, m);
    var dest := Destination(cfg, m).value.server;
    MarkedGrows(cfg, server, sets, names, sets', names', flagged, |cfg.mappings|);
    BaseStable(cfg, sets, names, sets', names', m);
    FlagsKeepSources(cfg, server, sets, sets', flagged, m);
    forall n | n in names' && n !in names && InFamily(n, base) ensures n == base && AggregateAt(cfg, sets, names, server, m) {
      FlaggedIsBase(cfg, server, sets, names, flagged, |cfg.mappings|, m, n);
    }
    if AggregateAt(cfg, sets, names, server, m) {
      AnnotatedExpectation(sets, sets', flagged, base, sources, dest, names, names');
    } else {
      RecordedFamilySkips(names, names', base);
      if base in flagged {
        FlaggedIsBase(cfg, server, sets, names, flagged, |cfg.mappings|, m, base);
      }
      FlagsElsewhere(sets, sets', flagged, base, sources, dest, names);
      SameFamilySameDecision(sets', base, sources, dest, names, names');
      EmptyMappingMarked(sets', base, dest, names');
    }
  }

  /** Decisions read the recorded names only through the mapping's own family. */
  lemma SameFamilySameDecision(sets: Cluster, base: string, sources: seq<string>, dest: string, names: seq<string>, names': seq<string>)
    requires RecordedFamily(names', base) == RecordedFamily(names, base)
    ensures Classify(sets, base, sources, dest, names') == Classify(sets, base, sources, dest, names)
    ensures ExpectationMet(sets, base, sources, dest, names') <==> ExpectationMet(sets, base, sources, dest, names)
  {
  }

  /** A Step 1 pass that accepts every mapping leaves a settled state. */
  lemma PassSettles(cfg: Config, server: string, sets: Cluster, names: seq<string>, sets': Cluster, names': seq<string>, flagged: set<string>)
    requires WellFormed(cfg) && NoSuffixCut(cfg) && ValidCluster(sets) && Distinct(names')
    requires MarkedPass(cfg, server, sets, names, sets', names', flagged)
    ensures Settled(cfg, sets', names', server)
  {
    forall m | 0 <= m < |cfg.mappings|
      ensures Passes(cfg, sets', names', server, m) && AggregateMarked(cfg, sets', names', server, m)
    {
      MarkedMappingSettled(cfg, server, sets, names, sets', names', flagged, m);
    }
  }
}
