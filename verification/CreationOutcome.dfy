/**
 What can stop creation for good, stated on the cluster and the record it starts from, and why an
 interrupted creation can be taken up again.
 */
module CreationOutcome {
  import opened FailureDomains
  import opened Names
  import opened Sums
  import opened MachineSets
  import opened Capacity
  import opened Progress
  import opened Agreement
  import opened Records
  import opened Creation

  // ----- Blocked creations -----

  /** One planned copy cannot be had: its name is taken by another server or another source, or it was recorded, is gone, and its source runs nothing. */
  predicate CopyBlocked(sets: Cluster, names: seq<string>, name: string, source: string, running: bool, dest: string) {
    if name in sets then !OnServer(sets, name, dest) || (running && sets[name].copyOf != "" && sets[name].copyOf != source)
    else name in names && !running
  }

  /** One of mapping m's planned copies cannot be had. */
  ghost predicate EntryBlocked(cfg: Config, sets: Cluster, names: seq<string>, server: string, m: nat)
    requires m < |cfg.mappings| && Destination(cfg, m).Some?
  {
    var base, sources := MappingBase(cfg, sets, names, m), MatchedSources(cfg, sets, server, m);
    Plan(cfg, sets, names, server, m).Ok? &&
    exists i | 0 <= i < |sources| && CopyName(base, i) in Plan(cfg, sets, names, server, m).value.names ::
      CopyBlocked(sets, names, CopyName(base, i), sources[i], At(Weights(sets), sources[i]) > 0, Destination(cfg, m).value.server)
  }

  /** A name recorded for mapping m is gone, and no source stands at its position any more. */
  ghost predicate Unrecoverable(cfg: Config, sets: Cluster, names: seq<string>, server: string, m: nat)
    requires m < |cfg.mappings| && Destination(cfg, m).Some?
  {
    var base, sources := MappingBase(cfg, sets, names, m), MatchedSources(cfg, sets, server, m);
    Plan(cfg, sets, names, server, m).Ok? && sources != [] &&
    exists n | n in Plan(cfg, sets, names, server, m).value.names :: n !in sets && n !in CopyNames(base, |sources|)
  }

  /** Two mappings select the same source. */
  ghost predicate Contested(cfg: Config, sets: Cluster, server: string, i: nat, j: nat) {
    && i < |cfg.mappings| && j < |cfg.mappings| && i != j
    && Elements(MatchedSources(cfg, sets, server, i)) * Elements(MatchedSources(cfg, sets, server, j)) != {}
  }

  ghost predicate MappingBlocked(cfg: Config, sets: Cluster, names: seq<string>, server: string, m: nat)
    requires m < |cfg.mappings|
  {
    || !Plannable(cfg, sets, names, server, m)
    || EntryBlocked(cfg, sets, names, server, m)
    || Unrecoverable(cfg, sets, names, server, m)
  }

  /** Creation cannot succeed from here, however often it is tried. */
  ghost predicate CreationBlocked(cfg: Config, sets: Cluster, names: seq<string>, server: string) {
    || |PlannedUnion(cfg, sets, names, server, |cfg.mappings|)| > MAX_RECORDED
    || (exists m | 0 <= m < |cfg.mappings| :: MappingBlocked(cfg, sets, names, server, m))
    || exists i, j :: Contested(cfg, sets, server, i, j)
  }

  /** Disjoint topologies never contest a source. */
  lemma NothingContested(cfg: Config, sets: Cluster, server: string, i: nat, j: nat)
    requires Distinct(SourcesOf(cfg.mappings)) && forall ws :: AtMostOneMatch(ws, OnlyServer(cfg.infraFDs, server))
    ensures !Contested(cfg, sets, server, i, j)
  {
    if i < |cfg.mappings| && j < |cfg.mappings| && i != j {
      MatchedDisjoint(cfg, sets, server, i, j);
    }
  }

  // ----- Bookkeeping of the creation loop -----

  /** Nothing of the family has been added since creation started. */
  ghost predicate Untouched(sets0: Cluster, names0: seq<string>, sets: Cluster, names: seq<string>, base: string) {
    forall n | InFamily(n, base) :: (n in sets <==> n in sets0) && (n in names <==> n in names0)
  }

  /** Of the family, at most the first k copies have been added. */
  ghost predicate TouchedUpTo(sets0: Cluster, names0: seq<string>, sets: Cluster, names: seq<string>, base: string, k: nat) {
    forall n | InFamily(n, base) && n !in CopyNames(base, k) :: (n in sets <==> n in sets0) && (n in names <==> n in names0)
  }

  /** Nothing outside the family has been added since. */
  ghost predicate AddedIn(sets: Cluster, names: seq<string>, sets': Cluster, names': seq<string>, base: string) {
    && (forall n | n in sets' && n !in sets :: InFamily(n, base))
    && (forall n | n in names' && n !in names :: InFamily(n, base))
    && (forall n | n in sets :: n in sets') && (forall n | n in names :: n in names')
  }

  /** Only the name was added. */
  predicate AddedOnly(sets: Cluster, names: seq<string>, sets': Cluster, names': seq<string>, name: string) {
    && (forall n | n in sets' :: n in sets || n == name)
    && (forall n | n in names' :: n in names || n == name)
    && (forall n | n in sets :: n in sets' && sets'[n] == sets[n]) && names <= names'
  }

  lemma TouchedStarts(sets0: Cluster, names0: seq<string>, sets: Cluster, names: seq<string>, base: string)
    requires Untouched(sets0, names0, sets, names, base)
    ensures TouchedUpTo(sets0, names0, sets, names, base, 0)
  {
  }

  lemma TouchedNext(sets0: Cluster, names0: seq<string>, a: Cluster, names: seq<string>, b: Cluster, names': seq<string>, base: string, k: nat)
    requires TouchedUpTo(sets0, names0, a, names, base, k) && AddedOnly(a, names, b, names', CopyName(base, k))
    ensures TouchedUpTo(sets0, names0, b, names', base, k + 1)
  {
    hide InFamily, CopyName;
    forall n | InFamily(n, base) && n !in CopyNames(base, k + 1)
      ensures (n in b <==> n in sets0) && (n in names' <==> n in names0)
    {
      assert n != CopyName(base, k) && n !in CopyNames(base, k);
    }
  }

  lemma TouchedSkips(sets0: Cluster, names0: seq<string>, sets: Cluster, names: seq<string>, base: string, k: nat)
    requires TouchedUpTo(sets0, names0, sets, names, base, k)
    ensures TouchedUpTo(sets0, names0, sets, names, base, k + 1)
  {
    hide InFamily, CopyName;
    assert forall n | n in CopyNames(base, k) :: n in CopyNames(base, k + 1);
  }

  /** When its turn comes, a copy is as blocked as it was at the start. */
  lemma CopyBlockedSame(sets0: Cluster, names0: seq<string>, sets: Cluster, names: seq<string>, base: string, k: nat, source: string, running: bool, dest: string)
    requires TouchedUpTo(sets0, names0, sets, names, base, k) && forall n | n in sets0 :: n in sets && sets[n] == sets0[n]
    ensures CopyBlocked(sets, names, CopyName(base, k), source, running, dest) <==> CopyBlocked(sets0, names0, CopyName(base, k), source, running, dest)
  {
    CopyInFamily(base, k);
    hide InFamily, CopyName;
    forall i | 0 <= i < k ensures CopyName(base, i) != CopyName(base, k) {
      if CopyName(base, i) == CopyName(base, k) {
        CopyNameInjective(base, i, k);
      }
    }
  }

  /** The mapping of an entry still to come is untouched. */
  ghost predicate AddedFor(cfg: Config, sets0: Cluster, names0: seq<string>, sets: Cluster, names: seq<string>, plans: seq<PlanEntry>, k: nat)
    requires k <= |plans|
  {
    && (forall n | n in sets0 :: n in sets) && (forall n | n in names0 :: n in names)
    && forall n | (n in sets && n !in sets0) || (n in names && n !in names0) :: ForEarlier(cfg, sets0, names0, plans, k, n)
  }

  ghost predicate ForEarlier(cfg: Config, sets0: Cluster, names0: seq<string>, plans: seq<PlanEntry>, k: nat, n: string)
    requires k <= |plans|
  {
    exists q | 0 <= q < k :: plans[q].mapping < |cfg.mappings| && InFamily(n, MappingBase(cfg, sets0, names0, plans[q].mapping))
  }

  lemma NextUntouched(cfg: Config, sets0: Cluster, names0: seq<string>, server: string, sets: Cluster, names: seq<string>, plans: seq<PlanEntry>, k: nat)
    requires WellFormed(cfg) && ValidCluster(sets0) && PlansUpTo(cfg, sets0, names0, server, plans, |cfg.mappings|)
    requires k < |plans| && AddedFor(cfg, sets0, names0, sets, names, plans, k)
    ensures plans[k].mapping < |cfg.mappings| && Untouched(sets0, names0, sets, names, MappingBase(cfg, sets0, names0, plans[k].mapping))
  {
    hide MappingBase, InFamily, WellFormed, ValidCluster, Plan, MatchedSources, Finished;
    assert plans[k] in plans;
    var m, base := plans[k].mapping, MappingBase(cfg, sets0, names0, plans[k].mapping);
    forall n | InFamily(n, base) && ForEarlier(cfg, sets0, names0, plans, k, n) ensures false {
      var q :| 0 <= q < k && plans[q].mapping < |cfg.mappings| && InFamily(n, MappingBase(cfg, sets0, names0, plans[q].mapping));
      SameOwner(cfg, sets0, names0, plans[q].mapping, m, n);
    }
  }

  lemma AddedForNext(cfg: Config, sets0: Cluster, names0: seq<string>, a: Cluster, names: seq<string>, b: Cluster, names': seq<string>, plans: seq<PlanEntry>, k: nat)
    requires k < |plans| && plans[k].mapping < |cfg.mappings| && AddedFor(cfg, sets0, names0, a, names, plans, k)
    requires AddedIn(a, names, b, names', MappingBase(cfg, sets0, names0, plans[k].mapping))
    ensures AddedFor(cfg, sets0, names0, b, names', plans, k + 1)
  {
    hide MappingBase, InFamily;
    forall n | (n in b && n !in sets0) || (n in names' && n !in names0) ensures ForEarlier(cfg, sets0, names0, plans, k + 1, n) {
      if (n in a && n !in sets0) || (n in names && n !in names0) {
        assert ForEarlier(cfg, sets0, names0, plans, k, n);
        var q :| 0 <= q < k && plans[q].mapping < |cfg.mappings| && InFamily(n, MappingBase(cfg, sets0, names0, plans[q].mapping));
      }
    }
  }

  // ----- Claimed sources -----

  /** The sources claimed by the first k entries. */
  ghost function ClaimedBy(plans: seq<PlanEntry>, k: nat): set<string>
    requires k <= |plans|
  {
    if k == 0 then {} else ClaimedBy(plans, k - 1) + Elements(plans[k - 1].sources)
  }

  lemma {:induction false} ClaimedByEarlier(plans: seq<PlanEntry>, k: nat, n: string) returns (q: nat)
    requires k <= |plans| && n in ClaimedBy(plans, k)
    ensures q < k && n in Elements(plans[q].sources)
  {
    hide Elements;
    if n in Elements(plans[k - 1].sources) {
      q := k - 1;
    } else {
      q := ClaimedByEarlier(plans, k - 1, n);
    }
  }

  /** A source claimed twice is selected by two mappings. */
  lemma ClaimContested(cfg: Config, sets: Cluster, names: seq<string>, server: string, plans: seq<PlanEntry>, k: nat)
    requires PlansUpTo(cfg, sets, names, server, plans, |cfg.mappings|) && k < |plans|
    requires ClaimedBy(plans, k) * Elements(plans[k].sources) != {}
    ensures exists i, j :: Contested(cfg, sets, server, i, j)
  {
    hide MatchedSources, Plan, Finished, Elements;
    var n :| n in ClaimedBy(plans, k) * Elements(plans[k].sources);
    var q := ClaimedByEarlier(plans, k, n);
    assert plans[q] in plans && plans[k] in plans;
    assert n in Elements(plans[q].sources) * Elements(plans[k].sources);
    assert Contested(cfg, sets, server, plans[q].mapping, plans[k].mapping);
  }

  lemma {:induction false} ClaimedIncludes(plans: seq<PlanEntry>, k: nat, q: nat)
    requires q < k <= |plans|
    ensures Elements(plans[q].sources) <= ClaimedBy(plans, k)
  {
    hide Elements;
    if q < k - 1 {
      ClaimedIncludes(plans, k - 1, q);
    }
  }

  lemma EntryOf(cfg: Config, sets: Cluster, names: seq<string>, server: string, plans: seq<PlanEntry>, m: nat) returns (q: nat)
    requires PlansUpTo(cfg, sets, names, server, plans, |cfg.mappings|) && m < |cfg.mappings| && MatchedSources(cfg, sets, server, m) != []
    ensures q < |plans| && plans[q].mapping == m && EntryFor(cfg, sets, names, server, plans[q])
  {
    hide MatchedSources, Plan, MappingBase;
    assert !Finished(cfg, sets, names, server, m);
    var p :| p in plans && p.mapping == m;
    q :| 0 <= q < |plans| && plans[q] == p;
  }

  /** Unclaimed entries do not contest each other. */
  lemma UnclaimedUncontested(cfg: Config, sets: Cluster, names: seq<string>, server: string, plans: seq<PlanEntry>, i: nat, j: nat)
    requires PlansUpTo(cfg, sets, names, server, plans, |cfg.mappings|)
    requires forall k | 0 <= k < |plans| :: ClaimedBy(plans, k) !! Elements(plans[k].sources)
    ensures !Contested(cfg, sets, server, i, j)
  {
    hide MatchedSources, Plan, Finished, PlansUpTo;
    if i < |cfg.mappings| && j < |cfg.mappings| && i != j {
      var x, y := MatchedSources(cfg, sets, server, i), MatchedSources(cfg, sets, server, j);
      if x == [] || y == [] {
        NoElements(x);
        NoElements(y);
      } else {
        var a := EntryOf(cfg, sets, names, server, plans, i);
        var b := EntryOf(cfg, sets, names, server, plans, j);
        if a < b {
          ClaimedIncludes(plans, b, a);
        } else {
          ClaimedIncludes(plans, a, b);
        }
      }
    }
  }

  // ----- The missing names at the end -----

  /** After all copies are done, a planned name is missing exactly if it was missing at the start and no source stands for it. */
  lemma MissingIsUnrecoverable(cfg: Config, server: string, sets0: Cluster, names0: seq<string>, sets: Cluster, names: seq<string>, p: PlanEntry)
    requires WellFormed(cfg) && ValidCluster(sets0) && EntryFor(cfg, sets0, names0, server, p)
    requires OnlyPlannedAdded(cfg, sets0, names0, server, sets, names)
    requires EntryDone(cfg, sets0, names0, sets, names, p, |p.sources|)
    ensures (forall n | n in p.names :: n in sets) <==> !Unrecoverable(cfg, sets0, names0, server, p.mapping)
  {
    hide MappingBase, MatchedSources, Expected, WellFormed, ValidCluster, CopyName, OnlyPlannedAdded;
    var m, base := p.mapping, MappingBase(cfg, sets0, names0, p.mapping);
    forall n | n in p.names && n !in sets ensures n !in sets0 && n !in CopyNames(base, |p.sources|) {
      if n in sets0 {
        BaseUntouched(cfg, server, sets0, names0, sets, names, n);
      }
    }
    forall n | n in p.names && n !in sets0 && n !in CopyNames(base, |p.sources|) ensures n !in sets {
      ExpectedInFamily(sets0, base, p.sources, Destination(cfg, m).value.server, names0, n);
      if n in sets {
        var j := NewCopyForOwner(cfg, server, sets0, names0, sets, names, m, n);
      }
    }
  }

  // ----- The creation loop decides exactly whether it is blocked -----

  /** MachineSets are added and never changed, names are appended. */
  predicate Grown(sets: Cluster, names: seq<string>, sets': Cluster, names': seq<string>) {
    (forall n | n in sets :: n in sets' && sets'[n] == sets[n]) && names <= names'
  }

  lemma GrownTrans(a: Cluster, names: seq<string>, b: Cluster, names': seq<string>, c: Cluster, names'': seq<string>, base: string)
    requires Grown(a, names, b, names') && AddedIn(a, names, b, names', base)
    requires Grown(b, names', c, names'') && AddedIn(b, names', c, names'', base)
    ensures Grown(a, names, c, names'') && AddedIn(a, names, c, names'', base)
  {
    hide InFamily;
  }

  /** None of an entry's first k copies is blocked. */
  ghost predicate CopiesFree(cfg: Config, sets0: Cluster, names0: seq<string>, server: string, p: PlanEntry, k: nat)
    requires EntryFor(cfg, sets0, names0, server, p) && k <= |p.sources|
  {
    forall i | 0 <= i < k && CopyName(MappingBase(cfg, sets0, names0, p.mapping), i) in p.names :: !CopyBlockedAt(cfg, sets0, names0, server, p, i)
  }

  ghost predicate CopyBlockedAt(cfg: Config, sets0: Cluster, names0: seq<string>, server: string, p: PlanEntry, i: nat)
    requires EntryFor(cfg, sets0, names0, server, p) && i < |p.sources|
  {
    CopyBlocked(sets0, names0, CopyName(MappingBase(cfg, sets0, names0, p.mapping), i), p.sources[i],
                At(Weights(sets0), p.sources[i]) > 0, Destination(cfg, p.mapping).value.server)
  }

  lemma EntryStarts(cfg: Config, sets0: Cluster, names0: seq<string>, server: string, sets: Cluster, names: seq<string>, p: PlanEntry, base: string)
    requires EntryFor(cfg, sets0, names0, server, p) && Untouched(sets0, names0, sets, names, base)
    ensures TouchedUpTo(sets0, names0, sets, names, base, 0) && AddedIn(sets, names, sets, names, base) && Grown(sets, names, sets, names)
    ensures CopiesFree(cfg, sets0, names0, server, p, 0) && Elements(p.sources[..0]) == {}
  {
    TouchedStarts(sets0, names0, sets, names, base);
  }

  lemma GrownDone(cfg: Config, sets0: Cluster, names0: seq<string>, a: Cluster, names: seq<string>, b: Cluster, names': seq<string>, p: PlanEntry, k: nat)
    requires Grown(a, names, b, names') && EntryDone(cfg, sets0, names0, a, names, p, k)
    ensures names <= names' && EntryDone(cfg, sets0, names0, b, names', p, k)
  {
    hide EntryDone;
    EntryDoneGrows(cfg, sets0, names0, a, names, b, names', p, k);
  }

  /** An entry's sources are distinct, so only an earlier entry can have claimed the next one. */
  lemma ClaimNext(cfg: Config, sets0: Cluster, names0: seq<string>, server: string, p: PlanEntry, claimed: set<string>, i: nat)
    requires EntryFor(cfg, sets0, names0, server, p) && i < |p.sources|
    ensures p.sources[i] in claimed + Elements(p.sources[..i]) <==> p.sources[i] in claimed
    ensures Elements(p.sources[..i + 1]) == Elements(p.sources[..i]) + {p.sources[i]}
    ensures p.sources[i] in Elements(p.sources)
  {
    hide Matched, Plan, MappingBase, Sorted;
    NextElement(p.sources, i);
  }

  lemma NextElement(s: seq<string>, i: nat)
    requires i < |s| && Distinct(s)
    ensures Elements(s[..i + 1]) == Elements(s[..i]) + {s[i]} && s[i] !in Elements(s[..i]) && s[i] in Elements(s)
  {
    assert s[..i + 1] == s[..i] + [s[i]];
  }

  lemma CopyTurn(cfg: Config, server: string, sets0: Cluster, names0: seq<string>, sets: Cluster, names: seq<string>, p: PlanEntry, i: nat)
    requires EntryFor(cfg, sets0, names0, server, p) && i < |p.sources| && Creating(cfg, server, sets0, names0, sets, names)
    requires TouchedUpTo(sets0, names0, sets, names, MappingBase(cfg, sets0, names0, p.mapping), i)
    ensures
      var name := CopyName(MappingBase(cfg, sets0, names0, p.mapping), i);
      CopyBlocked(sets, names, name, p.sources[i], At(Weights(sets0), p.sources[i]) > 0, Destination(cfg, p.mapping).value.server)
      <==> CopyBlockedAt(cfg, sets0, names0, server, p, i)
  {
    hide MappingBase, MatchedSources, Plan, CopyName, TouchedUpTo, CopyBlocked, PlacedWithBase, Planned, CopiesSource, Weights;
    CopyBlockedSame(sets0, names0, sets, names, MappingBase(cfg, sets0, names0, p.mapping), i, p.sources[i],
                    At(Weights(sets0), p.sources[i]) > 0, Destination(cfg, p.mapping).value.server);
  }

  lemma CopyAdded(sets0: Cluster, names0: seq<string>, a: Cluster, names: seq<string>, b: Cluster, names': seq<string>, base: string, i: nat)
    requires TouchedUpTo(sets0, names0, a, names, base, i) && AddedOnly(a, names, b, names', CopyName(base, i))
    ensures Grown(a, names, b, names') && AddedIn(a, names, b, names', base) && TouchedUpTo(sets0, names0, b, names', base, i + 1)
  {
    CopyInFamily(base, i);
    TouchedNext(sets0, names0, a, names, b, names', base, i);
  }

  lemma NothingAdded(sets0: Cluster, names0: seq<string>, sets: Cluster, names: seq<string>, base: string, i: nat)
    requires TouchedUpTo(sets0, names0, sets, names, base, i)
    ensures Grown(sets, names, sets, names) && AddedIn(sets, names, sets, names, base) && TouchedUpTo(sets0, names0, sets, names, base, i + 1)
  {
    TouchedSkips(sets0, names0, sets, names, base, i);
  }

  lemma BlockedCopyBlocks(cfg: Config, server: string, sets0: Cluster, names0: seq<string>, p: PlanEntry, i: nat)
    requires EntryFor(cfg, sets0, names0, server, p) && i < |p.sources|
    requires CopyName(MappingBase(cfg, sets0, names0, p.mapping), i) in p.names
    ensures CopyBlockedAt(cfg, sets0, names0, server, p, i) ==> EntryBlocked(cfg, sets0, names0, server, p.mapping)
  {
    hide MappingBase, MatchedSources, Plan, CopyName, CopyBlocked, Weights;
  }

  lemma CopyFree(cfg: Config, sets0: Cluster, names0: seq<string>, server: string, p: PlanEntry, i: nat)
    requires EntryFor(cfg, sets0, names0, server, p) && i < |p.sources| && CopiesFree(cfg, sets0, names0, server, p, i)
    requires CopyName(MappingBase(cfg, sets0, names0, p.mapping), i) in p.names ==> !CopyBlockedAt(cfg, sets0, names0, server, p, i)
    ensures CopiesFree(cfg, sets0, names0, server, p, i + 1)
  {
    hide MappingBase, MatchedSources, Plan, CopyName, CopyBlockedAt;
  }

  lemma FreeEntry(cfg: Config, sets0: Cluster, names0: seq<string>, server: string, p: PlanEntry)
    requires EntryFor(cfg, sets0, names0, server, p) && CopiesFree(cfg, sets0, names0, server, p, |p.sources|)
    ensures !EntryBlocked(cfg, sets0, names0, server, p.mapping)
  {
    hide MappingBase, MatchedSources, Plan, CopyName, CopyBlocked, Weights;
    forall i | 0 <= i < |p.sources| && CopyName(MappingBase(cfg, sets0, names0, p.mapping), i) in p.names
      ensures !CopyBlockedAt(cfg, sets0, names0, server, p, i)
    {
    }
  }

  // ----- Whole plans -----

  /** Every mapping with sources can be created, and none shares a source with another. */
  ghost predicate PlanFree(cfg: Config, sets: Cluster, names: seq<string>, server: string) {
    && (forall m | 0 <= m < |cfg.mappings| && Destination(cfg, m).Some? ::
          !EntryBlocked(cfg, sets, names, server, m) && !Unrecoverable(cfg, sets, names, server, m))
    && forall i, j :: !Contested(cfg, sets, server, i, j)
  }

  /** The first k entries are not blocked, and claim no source twice. */
  ghost predicate EntriesFree(cfg: Config, sets: Cluster, names: seq<string>, server: string, plans: seq<PlanEntry>, k: nat)
    requires k <= |plans|
  {
    forall q | 0 <= q < k ::
      && plans[q].mapping < |cfg.mappings| && Destination(cfg, plans[q].mapping).Some?
      && !EntryBlocked(cfg, sets, names, server, plans[q].mapping)
      && ClaimedBy(plans, q) !! Elements(plans[q].sources)
  }

  lemma PlanStarts(cfg: Config, sets: Cluster, names: seq<string>, server: string, plans: seq<PlanEntry>)
    ensures AddedFor(cfg, sets, names, sets, names, plans, 0) && EntriesFree(cfg, sets, names, server, plans, 0)
  {
  }

  lemma PlanEntryAt(cfg: Config, sets: Cluster, names: seq<string>, server: string, plans: seq<PlanEntry>, i: nat)
    requires PlansUpTo(cfg, sets, names, server, plans, |cfg.mappings|) && i < |plans|
    ensures EntryFor(cfg, sets, names, server, plans[i]) && plans[i].mapping < |cfg.mappings| && Destination(cfg, plans[i].mapping).Some?
  {
    hide MatchedSources, Plan, Finished;
    assert plans[i] in plans;
  }

  lemma EntryStops(cfg: Config, sets: Cluster, names: seq<string>, server: string, plans: seq<PlanEntry>, i: nat)
    requires PlansUpTo(cfg, sets, names, server, plans, |cfg.mappings|) && i < |plans|
    requires plans[i].mapping < |cfg.mappings| && Destination(cfg, plans[i].mapping).Some?
    ensures ClaimedBy(plans, i) * Elements(plans[i].sources) != {} || EntryBlocked(cfg, sets, names, server, plans[i].mapping) ==>
              !PlanFree(cfg, sets, names, server)
  {
    hide EntryBlocked, Unrecoverable, Contested, PlansUpTo;
    if ClaimedBy(plans, i) * Elements(plans[i].sources) != {} {
      ClaimContested(cfg, sets, names, server, plans, i);
    }
  }

  lemma EntriesFreeNext(cfg: Config, sets: Cluster, names: seq<string>, server: string, plans: seq<PlanEntry>, i: nat)
    requires i < |plans| && EntriesFree(cfg, sets, names, server, plans, i)
    requires plans[i].mapping < |cfg.mappings| && Destination(cfg, plans[i].mapping).Some?
    requires !EntryBlocked(cfg, sets, names, server, plans[i].mapping) && ClaimedBy(plans, i) !! Elements(plans[i].sources)
    ensures EntriesFree(cfg, sets, names, server, plans, i + 1)
  {
    hide EntryBlocked;
  }

  /** The first k entries are done: free, nothing of the later ones touched. */
  ghost predicate PlanDone(cfg: Config, server: string, sets0: Cluster, names0: seq<string>, sets: Cluster, names: seq<string>, plans: seq<PlanEntry>, k: nat) {
    && k <= |plans|
    && AddedFor(cfg, sets0, names0, sets, names, plans, k) && EntriesFree(cfg, sets0, names0, server, plans, k)
    && forall q | 0 <= q < k :: EntryDone(cfg, sets0, names0, sets, names, plans[q], |plans[q].sources|)
  }

  lemma PlanDoneNext(cfg: Config, server: string, sets0: Cluster, names0: seq<string>, a: Cluster, names: seq<string>, b: Cluster, names': seq<string>, plans: seq<PlanEntry>, k: nat)
    requires PlanDone(cfg, server, sets0, names0, a, names, plans, k) && k < |plans|
    requires plans[k].mapping < |cfg.mappings| && Destination(cfg, plans[k].mapping).Some?
    requires Grown(a, names, b, names') && AddedIn(a, names, b, names', MappingBase(cfg, sets0, names0, plans[k].mapping))
    requires EntryDone(cfg, sets0, names0, b, names', plans[k], |plans[k].sources|)
    requires !EntryBlocked(cfg, sets0, names0, server, plans[k].mapping) && ClaimedBy(plans, k) !! Elements(plans[k].sources)
    ensures PlanDone(cfg, server, sets0, names0, b, names', plans, k + 1)
  {
    hide AddedFor, EntriesFree, EntryDone, Grown, AddedIn, MappingBase, EntryBlocked;
    AddedForNext(cfg, sets0, names0, a, names, b, names', plans, k);
    EntriesFreeNext(cfg, sets0, names0, server, plans, k);
    forall q | 0 <= q < k ensures EntryDone(cfg, sets0, names0, b, names', plans[q], |plans[q].sources|) {
      GrownDone(cfg, sets0, names0, a, names, b, names', plans[q], |plans[q].sources|);
    }
  }

  lemma PlanDoneTurn(cfg: Config, server: string, sets0: Cluster, names0: seq<string>, sets: Cluster, names: seq<string>, plans: seq<PlanEntry>, k: nat)
    requires WellFormed(cfg) && ValidCluster(sets0) && PlansUpTo(cfg, sets0, names0, server, plans, |cfg.mappings|)
    requires k < |plans| && PlanDone(cfg, server, sets0, names0, sets, names, plans, k)
    ensures EntryFor(cfg, sets0, names0, server, plans[k]) && plans[k].mapping < |cfg.mappings| && Destination(cfg, plans[k].mapping).Some?
    ensures Untouched(sets0, names0, sets, names, MappingBase(cfg, sets0, names0, plans[k].mapping))
  {
    hide AddedFor, EntriesFree, EntryDone, WellFormed, ValidCluster, PlansUpTo, EntryFor, MappingBase, Untouched;
    PlanEntryAt(cfg, sets0, names0, server, plans, k);
    NextUntouched(cfg, sets0, names0, server, sets, names, plans, k);
  }

  lemma PlanDoneStarts(cfg: Config, sets: Cluster, names: seq<string>, server: string, plans: seq<PlanEntry>)
    ensures PlanDone(cfg, server, sets, names, sets, names, plans, 0)
  {
    hide AddedFor, EntriesFree;
    PlanStarts(cfg, sets, names, server, plans);
  }

  lemma PlanDoneEnds(cfg: Config, server: string, sets0: Cluster, names0: seq<string>, sets: Cluster, names: seq<string>, plans: seq<PlanEntry>)
    requires PlansUpTo(cfg, sets0, names0, server, plans, |cfg.mappings|) && PlanDone(cfg, server, sets0, names0, sets, names, plans, |plans|)
    requires forall k | 0 <= k < |plans| ::
               && (forall n | n in plans[k].names :: n in sets)
               && plans[k].mapping < |cfg.mappings| && Destination(cfg, plans[k].mapping).Some?
               && !Unrecoverable(cfg, sets0, names0, server, plans[k].mapping)
    ensures PlanFree(cfg, sets0, names0, server)
    ensures forall p | p in plans :: EntryDone(cfg, sets0, names0, sets, names, p, |p.sources|) && forall n | n in p.names :: n in sets
  {
    hide AddedFor, EntriesFree, EntryDone, PlansUpTo, PlanFree, Unrecoverable;
    AllEntriesFree(cfg, sets0, names0, server, plans);
  }

  lemma PlannedSoFar(cfg: Config, server: string, sets0: Cluster, names0: seq<string>, sets: Cluster, names: seq<string>)
    requires Creating(cfg, server, sets0, names0, sets, names)
    ensures OnlyPlannedAdded(cfg, sets0, names0, server, sets, names)
  {
  }

  lemma LostNameBlocks(cfg: Config, sets: Cluster, names: seq<string>, server: string, plans: seq<PlanEntry>, i: nat)
    requires i < |plans| && plans[i].mapping < |cfg.mappings| && Destination(cfg, plans[i].mapping).Some?
    requires Unrecoverable(cfg, sets, names, server, plans[i].mapping)
    ensures !PlanFree(cfg, sets, names, server)
  {
    hide EntryBlocked, Unrecoverable, Contested;
  }

  lemma NoSourcesNoBlock(cfg: Config, sets: Cluster, names: seq<string>, server: string, m: nat)
    requires m < |cfg.mappings| && Destination(cfg, m).Some? && MatchedSources(cfg, sets, server, m) == []
    ensures !EntryBlocked(cfg, sets, names, server, m) && !Unrecoverable(cfg, sets, names, server, m)
  {
    hide MappingBase, MatchedSources, Plan;
  }

  lemma AllEntriesFree(cfg: Config, sets: Cluster, names: seq<string>, server: string, plans: seq<PlanEntry>)
    requires PlansUpTo(cfg, sets, names, server, plans, |cfg.mappings|) && EntriesFree(cfg, sets, names, server, plans, |plans|)
    requires forall k | 0 <= k < |plans| :: plans[k].mapping < |cfg.mappings| && Destination(cfg, plans[k].mapping).Some? && !Unrecoverable(cfg, sets, names, server, plans[k].mapping)
    ensures PlanFree(cfg, sets, names, server)
  {
    hide EntryBlocked, Unrecoverable, Contested, PlansUpTo, MatchedSources, EntryFor;
    forall m | 0 <= m < |cfg.mappings| && Destination(cfg, m).Some?
      ensures !EntryBlocked(cfg, sets, names, server, m) && !Unrecoverable(cfg, sets, names, server, m)
    {
      if MatchedSources(cfg, sets, server, m) == [] {
        NoSourcesNoBlock(cfg, sets, names, server, m);
      } else {
        var q := EntryOf(cfg, sets, names, server, plans, m);
      }
    }
    forall i, j ensures !Contested(cfg, sets, server, i, j) {
      UnclaimedUncontested(cfg, sets, names, server, plans, i, j);
    }
  }

  lemma UnplannableBlocks(cfg: Config, sets: Cluster, names: seq<string>, server: string)
    requires !(&& (forall m | 0 <= m < |cfg.mappings| :: Plannable(cfg, sets, names, server, m))
               && |PlannedUnion(cfg, sets, names, server, |cfg.mappings|)| <= MAX_RECORDED)
    ensures CreationBlocked(cfg, sets, names, server)
  {
    hide Plannable, EntryBlocked, Unrecoverable, PlannedUnion, Contested;
    if m :| 0 <= m < |cfg.mappings| && !Plannable(cfg, sets, names, server, m) {
      assert MappingBlocked(cfg, sets, names, server, m);
    }
  }

  /** With a plan within the bound, creation is blocked exactly if the plan is not free. */
  lemma PlannedBlocked(cfg: Config, sets: Cluster, names: seq<string>, server: string)
    requires forall m | 0 <= m < |cfg.mappings| :: Plannable(cfg, sets, names, server, m)
    requires |PlannedUnion(cfg, sets, names, server, |cfg.mappings|)| <= MAX_RECORDED
    ensures CreationBlocked(cfg, sets, names, server) <==> !PlanFree(cfg, sets, names, server)
  {
    hide EntryBlocked, Unrecoverable, PlannedUnion, Contested, Plan, Finished, MatchedSources;
    forall m | 0 <= m < |cfg.mappings|
      ensures Destination(cfg, m).Some?
      ensures MappingBlocked(cfg, sets, names, server, m) <==> EntryBlocked(cfg, sets, names, server, m) || Unrecoverable(cfg, sets, names, server, m)
    {
      assert Plannable(cfg, sets, names, server, m);
    }
  }

  // ----- Taking up an interrupted creation -----

  /** What an unfinished creation has added, it planned: the plan of the mapping is still the same. */
  lemma PlanResumes(cfg: Config, server: string, sets0: Cluster, names0: seq<string>, sets: Cluster, names: seq<string>, m: nat)
    requires Ready(cfg, server) && NoSuffixCut(cfg) && ValidCluster(sets0) && Distinct(names) && m < |cfg.mappings|
    requires RecordPlaced(cfg, sets0, names0, m) && OnlyPlannedAdded(cfg, sets0, names0, server, sets, names)
    requires MatchedSources(cfg, sets0, server, m) != [] && Plan(cfg, sets0, names0, server, m).Ok?
    requires LayoutKept(cfg, sets0, names0, server, names, m)
    ensures Plan(cfg, sets, names, server, m) == Plan(cfg, sets0, names0, server, m)
  {
    hide MappingBase, MatchedSources, Ready, NoSuffixCut, WellFormed, ValidCluster, OnlyPlannedAdded, LayoutKept, Classify, CopyName;
    var base, sources, dest := MappingBase(cfg, sets0, names0, m), MatchedSources(cfg, sets0, server, m), Destination(cfg, m).value.server;
    ReadyIsWellFormed(cfg, server);
    CreatedView(cfg, server, sets0, names0, sets, names, m);
    CreatedClassify(cfg, server, sets0, names0, sets, names, m);
    PlannedPrefix(cfg, sets0, names0, server, sets, names);
    forall n | n in RecordedFamily(names, base) ensures n in Plan(cfg, sets0, names0, server, m).value.names {
      if n !in names0 {
        NewlyRecorded(cfg, server, sets0, names0, sets, names, m, n);
      } else {
        assert n in RecordedFamily(names0, base);
      }
    }
    if !Plan(cfg, sets0, names0, server, m).value.aggregate {
      forall i | 0 <= i < |sources| ensures CopyProblem(sets, base, sources, dest, i).None? {
        CreatedCopiesLargeEnough(cfg, server, sets0, names0, sets, names, m, i);
      }
    }
    SameExpectation(sets0, sets, base, sources, dest, names0, names);
  }

  lemma SameExpectation(sets0: Cluster, sets: Cluster, base: string, sources: seq<string>, dest: string, names0: seq<string>, names: seq<string>)
    requires names0 <= names && Expected(sets0, base, sources, dest, names0).Ok?
    requires Classify(sets, base, sources, dest, names) == Classify(sets0, base, sources, dest, names0)
    requires forall n | n in RecordedFamily(names, base) :: n in Expected(sets0, base, sources, dest, names0).value.names
    requires !Expected(sets0, base, sources, dest, names0).value.aggregate ==>
               forall i | 0 <= i < |sources| :: CopyProblem(sets, base, sources, dest, i).None?
    ensures Expected(sets, base, sources, dest, names) == Expected(sets0, base, sources, dest, names0)
  {
    hide Classify, CopyName, CopyProblem;
    RecordedFamilyPrefix(names0, names, base);
    var f0, f := RecordedFamily(names0, base), RecordedFamily(names, base);
    assert forall n | n in f0 :: n in f;
    var e0, e := Expected(sets0, base, sources, dest, names0).value, Expected(sets, base, sources, dest, names).value;
    assert e.names == e0.names;
  }

  lemma LayoutKeptByCreation(cfg: Config, server: string, sets0: Cluster, names0: seq<string>, sets: Cluster, names: seq<string>, m: nat)
    requires WellFormed(cfg) && ValidCluster(sets0) && Distinct(names) && m < |cfg.mappings| && Destination(cfg, m).Some?
    requires OnlyPlannedAdded(cfg, sets0, names0, server, sets, names)
    requires MatchedSources(cfg, sets0, server, m) != [] && !Disagrees(cfg, sets0, names0, server, m)
    ensures LayoutKept(cfg, sets0, names0, server, names, m)
  {
    hide MappingBase, MatchedSources, WellFormed, OnlyPlannedAdded, FallbackAggregate;
    if FallbackAggregate(cfg, sets0, names0, server, m) {
      FallbackFamilyStaysSmall(cfg, server, sets0, names0, sets, names, m);
    }
  }

  lemma FinishedResumes(cfg: Config, server: string, sets0: Cluster, names0: seq<string>, sets: Cluster, names: seq<string>, m: nat)
    requires Ready(cfg, server) && NoSuffixCut(cfg) && ValidCluster(sets0) && m < |cfg.mappings|
    requires OnlyPlannedAdded(cfg, sets0, names0, server, sets, names) && Finished(cfg, sets0, names0, server, m)
    ensures Finished(cfg, sets, names, server, m)
  {
    hide MappingBase, MatchedSources, Ready, NoSuffixCut, WellFormed, ValidCluster, Planned, CopiesSource;
    ReadyIsWellFormed(cfg, server);
    CreatedView(cfg, server, sets0, names0, sets, names, m);
    FinishedUnchanged(cfg, server, sets0, names0, sets, names, m);
  }

  lemma EntryResumes(cfg: Config, server: string, sets0: Cluster, names0: seq<string>, sets: Cluster, names: seq<string>, p: PlanEntry)
    requires Ready(cfg, server) && NoSuffixCut(cfg) && ValidCluster(sets0) && Distinct(names)
    requires OnlyPlannedAdded(cfg, sets0, names0, server, sets, names) && EntryFor(cfg, sets0, names0, server, p)
    requires RecordPlaced(cfg, sets0, names0, p.mapping) && !Disagrees(cfg, sets0, names0, server, p.mapping)
    ensures EntryFor(cfg, sets, names, server, p)
  {
    hide MappingBase, MatchedSources, Ready, NoSuffixCut, WellFormed, ValidCluster, OnlyPlannedAdded, Plan, Disagrees, LayoutKept, RecordPlaced;
    ReadyIsWellFormed(cfg, server);
    CreatedView(cfg, server, sets0, names0, sets, names, p.mapping);
    LayoutKeptByCreation(cfg, server, sets0, names0, sets, names, p.mapping);
    PlanResumes(cfg, server, sets0, names0, sets, names, p.mapping);
  }

  /**
   An interrupted creation is resumable: wherever it stopped, whether its names were published or lost, the
   plan it was working through is still the plan, entry by entry.
   */
  lemma CreationResumes(cfg: Config, server: string, sets0: Cluster, names0: seq<string>, sets: Cluster, names: seq<string>, plans: seq<PlanEntry>)
    requires Ready(cfg, server) && NoSuffixCut(cfg) && ValidCluster(sets0) && Distinct(names) && Distinct(names0)
    requires RecordsPlaced(cfg, sets0, names0) && RecordsAgree(cfg, sets0, names0, server)
    requires OnlyPlannedAdded(cfg, sets0, names0, server, sets, names)
    requires PlansUpTo(cfg, sets0, names0, server, plans, |cfg.mappings|)
    ensures PlansUpTo(cfg, sets, names, server, plans, |cfg.mappings|)
    ensures PlansUpTo(cfg, sets, names0, server, plans, |cfg.mappings|)
  {
    hide EntryFor, Finished, Disagrees, RecordPlaced, Ready, NoSuffixCut, Planned, CopiesSource, ValidCluster;
    assert OnlyPlannedAdded(cfg, sets0, names0, server, sets, names0);
    hide OnlyPlannedAdded;
    forall p | p in plans ensures EntryFor(cfg, sets, names, server, p) && EntryFor(cfg, sets, names0, server, p) {
      assert RecordPlaced(cfg, sets0, names0, p.mapping) && !Disagrees(cfg, sets0, names0, server, p.mapping);
      EntryResumes(cfg, server, sets0, names0, sets, names, p);
      EntryResumes(cfg, server, sets0, names0, sets, names0, p);
    }
    forall m | 0 <= m < |cfg.mappings| && Finished(cfg, sets0, names0, server, m)
      ensures Finished(cfg, sets, names, server, m) && Finished(cfg, sets, names0, server, m)
    {
      FinishedResumes(cfg, server, sets0, names0, sets, names, m);
      FinishedResumes(cfg, server, sets0, names0, sets, names0, m);
    }
  }

  lemma PlannedNamesFromPlan(cfg: Config, sets: Cluster, names: seq<string>, server: string, plans: seq<PlanEntry>, m: nat)
    requires PlansUpTo(cfg, sets, names, server, plans, |cfg.mappings|) && m < |cfg.mappings|
    ensures Finished(cfg, sets, names, server, m) ==> PlannedNames(cfg, sets, names, server, m) == {}
    ensures forall p | p in plans && p.mapping == m :: PlannedNames(cfg, sets, names, server, m) == p.names
  {
    hide MatchedSources, MappingBase, Plan;
  }

  lemma {:induction false} UnionsAgree(cfg: Config, server: string, a: Cluster, names: seq<string>, b: Cluster, names': seq<string>, plans: seq<PlanEntry>, k: nat)
    requires k <= |cfg.mappings| && names <= names'
    requires PlansUpTo(cfg, a, names, server, plans, |cfg.mappings|) && PlansUpTo(cfg, b, names', server, plans, |cfg.mappings|)
    ensures PlannedUnion(cfg, b, names', server, k) == PlannedUnion(cfg, a, names, server, k) + Elements(names')
  {
    hide PlannedNames, EntryFor, Finished;
    if k > 0 {
      var m := k - 1;
      UnionsAgree(cfg, server, a, names, b, names', plans, m);
      PlannedNamesFromPlan(cfg, a, names, server, plans, m);
      PlannedNamesFromPlan(cfg, b, names', server, plans, m);
      if p :| p in plans && p.mapping == m {
        assert PlannedNames(cfg, a, names, server, m) == p.names == PlannedNames(cfg, b, names', server, m);
      }
    }
  }

  /** Resuming never outgrows the bound: the union of recorded and planned names is what it was. */
  lemma ResumedUnionSame(cfg: Config, server: string, sets0: Cluster, names0: seq<string>, sets: Cluster, names: seq<string>, plans: seq<PlanEntry>)
    requires Ready(cfg, server) && NoSuffixCut(cfg) && ValidCluster(sets0) && Distinct(names0)
    requires RecordsPlaced(cfg, sets0, names0) && RecordsAgree(cfg, sets0, names0, server)
    requires Creating(cfg, server, sets0, names0, sets, names)
    requires PlansUpTo(cfg, sets0, names0, server, plans, |cfg.mappings|)
    ensures PlannedUnion(cfg, sets, names, server, |cfg.mappings|) == PlannedUnion(cfg, sets0, names0, server, |cfg.mappings|)
  {
    hide PlansUpTo, OnlyPlannedAdded, PlacedWithBase, RecordsPlaced, RecordsAgree, Ready, NoSuffixCut, PlannedUnion;
    CreatingBounded(cfg, server, sets0, names0, sets, names);
    CreationResumes(cfg, server, sets0, names0, sets, names, plans);
    PlannedPrefix(cfg, sets0, names0, server, sets, names);
    UnionsAgree(cfg, server, sets0, names0, sets, names, plans, |cfg.mappings|);
  }
}
