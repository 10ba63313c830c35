/** The read-only loops of the workload step, each computing one of the decisions specified in MachineSets. */
module Decisions {
  import opened FailureDomains
  import opened Names
  import opened Sums
  import opened MachineSets

  method TotalReplicas(sets: Cluster, sources: seq<string>) returns (total: nat)
    ensures total == ListSum(Weights(sets), sources)
  {
    total := 0;
    for i := 0 to |sources|
      invariant total == ListSum(Weights(sets), sources[..i])
    {
      assert sources[..i + 1][..i] == sources[..i];
      total := total + (if sources[i] in sets then Desired(sets[sources[i]]) else 0);
    }
    assert sources[..|sources|] == sources;
  }

  method CopyExists(sets: Cluster, base: string, count: nat) returns (found: bool)
    ensures found <==> exists i | 1 <= i < count :: CopyName(base, i) in sets
  {
    var i := 1;
    while i < count
      invariant forall k | 1 <= k < i :: CopyName(base, k) !in sets
    {
      if CopyName(base, i) in sets {
        return true;
      }
      i := i + 1;
    }
    return false;
  }

  method ClassifyDestinationLayout(sets: Cluster, base: string, sources: seq<string>, server: string, recorded: seq<string>)
    returns (v: Verdict<Layout>)
    ensures v == Classify(sets, base, sources, server, recorded)
    ensures
      var total := ListSum(Weights(sets), sources);
      var placed := base in sets && sets[base].provider.Placed? && sets[base].provider.workspace.server == server;
      var lone := placed && !sets[base].aggregate && |sources| > 1 && |RecordedFamily(recorded, base)| < 2 && sets[base].copyOf == ""
                  && forall i | 1 <= i < |sources| :: CopyName(base, i) !in sets;
      && (v == Refused(UnreadableSpec(base)) <==> base in sets && sets[base].provider.Unreadable?)
      && (v == Refused(AggregateTooSmall(base)) <==> placed && sets[base].aggregate && Desired(sets[base]) < total)
      && (v == Ok(Ambiguous) <==> lone && total > 0 && Desired(sets[base]) != total)
      && (v == Ok(Aggregate) <==> (placed && sets[base].aggregate && Desired(sets[base]) >= total) || (lone && (total == 0 || Desired(sets[base]) == total)))
      && (v.Refused? ==> v.problem in {UnreadableSpec(base), AggregateTooSmall(base)})
  {
    if base !in sets {
      return Ok(PerSource);
    }
    var existing := sets[base];
    if existing.provider.Unreadable? {
      return Refused(UnreadableSpec(base));
    }
    if !OnServer(sets, base, server) {
      return Ok(PerSource);
    }
    var total := TotalReplicas(sets, sources);
    if existing.aggregate {
      if Desired(existing) < total {
        return Refused(AggregateTooSmall(base));
      }
      return Ok(Aggregate);
    }
    if |sources| < 2 {
      return Ok(PerSource);
    }
    if |RecordedFamily(recorded, base)| > 1 || existing.copyOf != "" {
      return Ok(PerSource);
    }
    var copied := CopyExists(sets, base, |sources|);
    if copied {
      return Ok(PerSource);
    }
    if total == 0 || Desired(existing) == total {
      return Ok(Aggregate);
    }
    return Ok(Ambiguous);
  }

  method ExpectedDestinationNames(sets: Cluster, base: string, sources: seq<string>, server: string, recorded: seq<string>)
    returns (v: Verdict<Expectation>)
    ensures v == Expected(sets, base, sources, server, recorded)
    ensures v.Ok? ==> forall n :: n in v.value.names <==>
              || (n in recorded && InFamily(n, base))
              || (if v.value.aggregate then n == base else exists i | 0 <= i < |sources| :: n == CopyName(base, i))
    ensures
      var layout := Classify(sets, base, sources, server, recorded);
      && (v.Ok? && v.value.aggregate <==> layout == Ok(Aggregate))
      && (v.Refused? <==>
            || layout.Refused? || layout == Ok(Ambiguous)
            || (layout == Ok(PerSource) && exists i | 0 <= i < |sources| ::
                  CopyName(base, i) in sets && Desired(sets[CopyName(base, i)]) < At(Weights(sets), sources[i])))
  {
    hide Classify, CopyName, InFamily;
    var layout := ClassifyDestinationLayout(sets, base, sources, server, recorded);
    var derived: set<string> := {};
    match layout {
      case Refused(p) =>
        return Refused(p);
      case Ok(Ambiguous) =>
        return Refused(AmbiguousBase(base));
      case Ok(Aggregate) =>
        return Ok(Expectation(Elements(RecordedFamily(recorded, base)) + {base}, true));
      case Ok(PerSource) =>
        for i := 0 to |sources|
          invariant derived == CopyNames(base, i)
          invariant FirstCopyProblem(sets, base, sources, server, i).None?
        {
          var problem := CopyProblem(sets, base, sources, server, i);
          if problem.Some? {
            FirstProblemWins(sets, base, sources, server, i, |sources|);
            return Refused(problem.value);
          }
          derived := derived + {CopyName(base, i)};
        }
        forall i | 0 <= i < |sources|
          ensures CopyName(base, i) in sets ==> Desired(sets[CopyName(base, i)]) >= At(Weights(sets), sources[i])
        {
          assert CopyProblem(sets, base, sources, server, i).None?;
        }
        return Ok(Expectation(Elements(RecordedFamily(recorded, base)) + derived, false));
    }
  }

  lemma {:induction false} FirstProblemWins(sets: Cluster, base: string, sources: seq<string>, server: string, i: nat, k: nat)
    requires i < k <= |sources|
    requires FirstCopyProblem(sets, base, sources, server, i).None? && CopyProblem(sets, base, sources, server, i).Some?
    ensures FirstCopyProblem(sets, base, sources, server, k) == CopyProblem(sets, base, sources, server, i)
    decreases k
  {
    hide CopyProblem, CopyName;
    if i < k - 1 {
      FirstProblemWins(sets, base, sources, server, i, k - 1);
    }
  }

  // ----- Step 1 on one mapping -----

  datatype Finding = Passed | Missing | Broken

  /** What Step 1 finds for a mapping, and whether its layout is an aggregate. */
  datatype Check = Check(finding: Finding, aggregate: bool)

  /** One pass over the expected names in order, checking existence, server and, for copies, identity. */
  method CheckTargets(sets: Cluster, names: seq<string>, server: string, base: string, sources: seq<string>, positional: bool)
    returns (c: Finding)
    requires positional ==> CopyNames(base, |sources|) <= Elements(names)
    ensures c.Passed? <==> AllOnServer(sets, Elements(names), server) && (positional ==> IdentityHolds(sets, base, sources))
    ensures c.Missing? ==> exists n | n in names :: n !in sets
    ensures c.Broken? ==> TargetsBroken(sets, Elements(names), server, base, sources, positional)
    ensures c.Passed? && positional ==> forall i | 0 <= i < |sources| && sources[i] in sets && Desired(sets[sources[i]]) > 0 ::
              CopyName(base, i) in sets && sets[CopyName(base, i)].copyOf in {"", sources[i]}
    ensures c.Broken? ==>
              || (exists n | n in names && n in sets :: !OnServer(sets, n, server))
              || (positional && exists i | 0 <= i < |sources| && sources[i] in sets && Desired(sets[sources[i]]) > 0 ::
                    CopyName(base, i) in sets && sets[CopyName(base, i)].copyOf !in {"", sources[i]})
  {
    for k := 0 to |names|
      invariant forall n | n in names[..k] :: OnServer(sets, n, server)
      invariant positional ==> forall i | 0 <= i < |sources| && CopyName(base, i) in names[..k] :: IdentityAt(sets, base, sources, i)
    {
      var name := names[k];
      assert name in names && name in Elements(names);
      assert names[..k + 1] == names[..k] + [name];
      if name !in sets {
        return Missing;
      }
      if !OnServer(sets, name, server) {
        return Broken;
      }
      if positional {
        var ok := CheckIdentity(sets, name, base, sources);
        if !ok {
          return Broken;
        }
      }
    }
    assert names[..|names|] == names;
    if positional {
      forall i | 0 <= i < |sources| ensures IdentityAt(sets, base, sources, i) && CopyName(base, i) in names {
        assert CopyName(base, i) in CopyNames(base, |sources|);
        assert CopyName(base, i) in Elements(names);
      }
    }
    return Passed;
  }

  method CheckIdentity(sets: Cluster, name: string, base: string, sources: seq<string>) returns (ok: bool)
    requires name in sets
    ensures ok <==> forall i | 0 <= i < |sources| && CopyName(base, i) == name :: IdentityAt(sets, base, sources, i)
  {
    for i := 0 to |sources|
      invariant forall k | 0 <= k < i && CopyName(base, k) == name :: IdentityAt(sets, base, sources, k)
    {
      if CopyName(base, i) == name && !IdentityAt(sets, base, sources, i) {
        return false;
      }
    }
    return true;
  }

  method CheckExpectation(sets: Cluster, base: string, sources: seq<string>, server: string, recorded: seq<string>) returns (c: Check)
    ensures c.finding.Passed? <==> ExpectationMet(sets, base, sources, server, recorded)
    ensures c.finding.Broken? ==> ExpectationBroken(sets, base, sources, server, recorded)
    ensures c.aggregate <==> Classify(sets, base, sources, server, recorded) == Ok(Aggregate)
  {
    var expected := ExpectedDestinationNames(sets, base, sources, server, recorded);
    if expected.Refused? {
      return Check(Broken, false);
    }
    var names := SortNames(expected.value.names);
    var finding := CheckTargets(sets, names, server, base, sources, !expected.value.aggregate);
    return Check(finding, expected.value.aggregate);
  }

  /** Step 1 takes mapping m's destination for an aggregate. */
  ghost predicate SeenAsAggregate(cfg: Config, sets: Cluster, recorded: seq<string>, m: nat, fd: FailureDomain)
    requires m < |cfg.mappings|
  {
    var base, sources := MappingBase(cfg, sets, recorded, m), Sources(cfg, sets, fd);
    && Destination(cfg, m).Some?
    && !(sources == [] && RecordedFamily(recorded, base) == [])
    && Classify(sets, base, sources, Destination(cfg, m).value.server, recorded) == Ok(Aggregate)
  }

  lemma VanishedNames(sets: Cluster, base: string, server: string, recorded: seq<string>)
    ensures
      var family := Elements(RecordedFamily(recorded, base));
      AllOnServer(sets, if family == {} then {base} else family, server) <==>
        && (forall n | n in recorded && InFamily(n, base) :: OnServer(sets, n, server))
        && (OnServer(sets, base, server) || exists n | n in recorded :: InFamily(n, base))
  {
    hide InFamily, OnServer;
    var family := RecordedFamily(recorded, base);
    NoElements(family);
    assert family != [] ==> family[0] in family;
  }

  /** The existence check of Step 1 for mapping m decides exactly MappingPasses. */
  method CheckMapping(cfg: Config, sets: Cluster, recorded: seq<string>, m: nat) returns (c: Check)
    requires m < |cfg.mappings|
    ensures c.finding.Passed? <==> MappingPasses(cfg, sets, recorded, m)
    ensures c.finding.Broken? ==> MappingBroken(cfg, sets, recorded, m)
    ensures Destination(cfg, m).None? ==> c.finding.Broken?
    ensures FindByName(cfg.infraFDs, cfg.mappings[m].source).None? && Destination(cfg, m).Some? ==>
              var base, server := MappingBase(cfg, sets, recorded, m), Destination(cfg, m).value.server;
              c.finding.Passed? <==>
                && (forall n | n in recorded && InFamily(n, base) :: OnServer(sets, n, server))
                && (OnServer(sets, base, server) || exists n | n in recorded :: InFamily(n, base))
    ensures c.aggregate <==>
              && FindByName(cfg.infraFDs, cfg.mappings[m].source).Some?
              && FindByName(cfg.infraFDs, cfg.mappings[m].source).value.server != ""
              && SeenAsAggregate(cfg, sets, recorded, m, FindByName(cfg.infraFDs, cfg.mappings[m].source).value)
  {
    hide MappingBase, CopyName, Classify, InFamily, OnServer, ExpectationMet, ExpectationBroken, IdentityAt, ByFailureDomain;
    var dest := Destination(cfg, m);
    if dest.None? {
      return Check(Broken, false);
    }
    var base := MappingBase(cfg, sets, recorded, m);
    var family := RecordedFamily(recorded, base);
    NoElements(family);
    var source := FindByName(cfg.infraFDs, cfg.mappings[m].source);
    if source.None? {
      var required := SortNames(if family == [] then {base} else Elements(family));
      VanishedNames(sets, base, dest.value.server, recorded);
      var finding := CheckTargets(sets, required, dest.value.server, base, [], false);
      return Check(finding, false);
    }
    var fd := source.value;
    if fd.server == "" {
      return Check(Broken, false);
    }
    var sources := SortNames(ByFailureDomain(sets, fd.server, fd));
    if sources == [] && family == [] {
      return Check(Passed, false);
    }
    c := CheckExpectation(sets, base, sources, dest.value.server, recorded);
  }

  // ----- Recovery -----

  method CheckPlaced(sets: Cluster, names: seq<string>, server: string) returns (ok: bool)
    ensures ok <==> AllOnServer(sets, Elements(names), server)
  {
    for k := 0 to |names|
      invariant forall n | n in names[..k] :: OnServer(sets, n, server)
    {
      assert names[..k + 1] == names[..k] + [names[k]];
      if !OnServer(sets, names[k], server) {
        assert names[k] in Elements(names);
        return false;
      }
    }
    assert names[..|names|] == names;
    return true;
  }

  /** Mapping m recovers, and these are its expected names (none for an intentionally empty mapping). */
  method RecoverMapping(cfg: Config, sets: Cluster, recorded: seq<string>, server: string, m: nat) returns (r: Option<seq<string>>)
    requires m < |cfg.mappings|
    ensures r.Some? <==> MappingRecovers(cfg, sets, recorded, server, m)
    ensures r.Some? ==> forall n | n in r.value :: RecoveredFor(cfg, sets, recorded, server, m, n)
    ensures r.Some? ==> forall n | n in r.value :: n in recorded || MappingBase(cfg, sets, recorded, m) in r.value
    ensures r.Some? ==> MappingKnown(cfg, sets, recorded, server, m, r.value)
  {
    var dest := Destination(cfg, m);
    if dest.None? {
      return None;
    }
    var base := MappingBase(cfg, sets, recorded, m);
    var sources := SortNames(Matched(cfg, sets, server, m));
    if sources == [] && RecordedFamily(recorded, base) == [] {
      return Some([]);
    }
    var expected := ExpectedDestinationNames(sets, base, sources, dest.value.server, recorded);
    if expected.Refused? {
      return None;
    }
    var names := SortNames(expected.value.names);
    var ok := CheckPlaced(sets, names, dest.value.server);
    if !ok {
      return None;
    }
    forall n | n in names ensures RecoveredFor(cfg, sets, recorded, server, m, n) {
      assert n in Elements(names);
    }
    forall n | n in names && n !in recorded ensures base in names {
      assert n in Elements(names);
      ExpectedHasBase(sets, base, sources, dest.value.server, recorded, n);
      assert base in Elements(names);
    }
    return Some(names);
  }

  /** A name expected beyond the recorded ones comes with the base. */
  lemma ExpectedHasBase(sets: Cluster, base: string, sources: seq<string>, server: string, recorded: seq<string>, n: string)
    requires Expected(sets, base, sources, server, recorded).Ok?
    requires n in Expected(sets, base, sources, server, recorded).value.names && n !in recorded
    ensures base in Expected(sets, base, sources, server, recorded).value.names
  {
    assert n !in Elements(RecordedFamily(recorded, base));
    assert CopyName(base, 0) == base;
    assert sources != [] ==> CopyName(base, 0) in CopyNames(base, |sources|);
  }

  /** n is one of mapping m's expected names and stands on its destination server. */
  ghost predicate RecoveredFor(cfg: Config, sets: Cluster, recorded: seq<string>, server: string, m: nat, n: string)
    requires m < |cfg.mappings|
  {
    var base, sources := MappingBase(cfg, sets, recorded, m), MatchedSources(cfg, sets, server, m);
    && Destination(cfg, m).Some?
    && !(sources == [] && RecordedFamily(recorded, base) == [])
    && Expected(sets, base, sources, Destination(cfg, m).value.server, recorded).Ok?
    && n in Expected(sets, base, sources, Destination(cfg, m).value.server, recorded).value.names
    && OnServer(sets, n, Destination(cfg, m).value.server)
  }

  /** Every name expected of mapping m is among the known ones. */
  ghost predicate MappingKnown(cfg: Config, sets: Cluster, recorded: seq<string>, server: string, m: nat, known: seq<string>)
    requires m < |cfg.mappings|
  {
    var base, sources := MappingBase(cfg, sets, recorded, m), MatchedSources(cfg, sets, server, m);
    Destination(cfg, m).Some? && !(sources == [] && RecordedFamily(recorded, base) == [])
      && Expected(sets, base, sources, Destination(cfg, m).value.server, recorded).Ok? ==>
      Expected(sets, base, sources, Destination(cfg, m).value.server, recorded).value.names <= Elements(known)
  }

  lemma MappingKnownGrows(cfg: Config, sets: Cluster, recorded: seq<string>, server: string, m: nat, known: seq<string>, known': seq<string>)
    requires m < |cfg.mappings| && MappingKnown(cfg, sets, recorded, server, m, known) && forall n | n in known :: n in known'
    ensures MappingKnown(cfg, sets, recorded, server, m, known')
  {
    hide MappingBase, MatchedSources, Expected;
    assert Elements(known) <= Elements(known');
  }

  /** The bases of all mappings a recovered name belongs to are known as well. */
  ghost predicate BaseKnown(cfg: Config, sets: Cluster, recorded: seq<string>, server: string, known: seq<string>, n: string) {
    exists m | 0 <= m < |cfg.mappings| ::
      RecoveredFor(cfg, sets, recorded, server, m, n) && MappingBase(cfg, sets, recorded, m) in known
  }

  lemma BaseKnownGrows(cfg: Config, sets: Cluster, recorded: seq<string>, server: string, known: seq<string>, known': seq<string>, n: string)
    requires BaseKnown(cfg, sets, recorded, server, known, n) && forall x | x in known :: x in known'
    ensures BaseKnown(cfg, sets, recorded, server, known', n)
  {
    hide RecoveredFor, MappingBase;
    var m :| 0 <= m < |cfg.mappings| && RecoveredFor(cfg, sets, recorded, server, m, n) && MappingBase(cfg, sets, recorded, m) in known;
  }

  lemma BaseKnownFrom(cfg: Config, sets: Cluster, recorded: seq<string>, server: string, names: seq<string>, known: seq<string>, m: nat, n: string)
    requires m < |cfg.mappings| && n in names && RecoveredFor(cfg, sets, recorded, server, m, n)
    requires MappingBase(cfg, sets, recorded, m) in names && forall x | x in names :: x in known
    ensures BaseKnown(cfg, sets, recorded, server, known, n)
  {
    hide RecoveredFor, MappingBase;
  }

  /** Re-derives every mapping's names; a failing mapping leaves nothing recovered. */
  method RecoverNames(cfg: Config, sets: Cluster, recorded: seq<string>, server: string) returns (r: Option<seq<string>>)
    requires Distinct(recorded)
    ensures r.Some? <==> Recovers(cfg, sets, recorded, server)
    ensures r.Some? ==> Distinct(recorded + r.value)
    ensures r.Some? ==> forall n | n in r.value :: BaseKnown(cfg, sets, recorded, server, recorded + r.value, n)
    ensures r.Some? ==> forall m | 0 <= m < |cfg.mappings| :: MappingKnown(cfg, sets, recorded, server, m, recorded + r.value)
  {
    hide BaseKnown, RecoveredFor, MappingBase, MappingRecovers, MappingKnown;
    var recovered: seq<string> := [];
    for m := 0 to |cfg.mappings|
      invariant forall k | 0 <= k < m :: MappingRecovers(cfg, sets, recorded, server, k)
      invariant Distinct(recorded + recovered)
      invariant forall n | n in recovered :: BaseKnown(cfg, sets, recorded, server, recorded + recovered, n)
      invariant forall k | 0 <= k < m :: MappingKnown(cfg, sets, recorded, server, k, recorded + recovered)
    {
      var names := RecoverMapping(cfg, sets, recorded, server, m);
      if names.None? {
        return None;
      }
      ghost var before := recovered;
      recovered := AppendNew(recorded, recovered, names.value);
      forall k | 0 <= k < m ensures MappingKnown(cfg, sets, recorded, server, k, recorded + recovered) {
        MappingKnownGrows(cfg, sets, recorded, server, k, recorded + before, recorded + recovered);
      }
      MappingKnownGrows(cfg, sets, recorded, server, m, names.value, recorded + recovered);
      forall n | n in recovered ensures BaseKnown(cfg, sets, recorded, server, recorded + recovered, n) {
        if n in before {
          BaseKnownGrows(cfg, sets, recorded, server, recorded + before, recorded + recovered, n);
        } else {
          BaseKnownFrom(cfg, sets, recorded, server, names.value, recorded + recovered, m, n);
        }
      }
    }
    return Some(recovered);
  }

  /** Appends the names that are in neither list. */
  method AppendNew(recorded: seq<string>, recovered: seq<string>, names: seq<string>) returns (r: seq<string>)
    requires Distinct(recorded + recovered)
    ensures Distinct(recorded + r)
    ensures forall n :: n in r <==> n in recovered || (n in names && n !in recorded)
  {
    r := recovered;
    for k := 0 to |names|
      invariant Distinct(recorded + r)
      invariant forall n :: n in r <==> n in recovered || (n in names[..k] && n !in recorded)
    {
      assert names[..k + 1] == names[..k] + [names[k]];
      if names[k] !in recorded && names[k] !in r {
        assert recorded + (r + [names[k]]) == (recorded + r) + [names[k]];
        r := r + [names[k]];
      }
    }
    assert names[..|names|] == names;
  }

  // ----- The source vCenter -----

  lemma OneByName(fds: seq<FailureDomain>, name: string)
    requires Distinct(NamesOf(fds))
    ensures forall fd | fd in fds && fd.name == name :: FindByName(fds, name) == Some(fd)
  {
    forall fd | fd in fds && fd.name == name ensures FindByName(fds, name) == Some(fd) {
      var i :| 0 <= i < |fds| && fds[i] == fd;
      FindDistinct(fds, i);
    }
  }

  /** Resolves the one source server, refusing a server that is also a configured destination. */
  method ResolveSource(cfg: Config) returns (r: Option<string>)
    ensures forall s :: r == Some(s) <==> SourceServer(cfg) == Some(s) && !IsDestination(cfg, s)
    ensures r.Some? ==>
              && r.value != "" && (forall fd | fd in cfg.destFDs :: fd.server != r.value)
              && cfg.mappings != [] && exists fd | fd in cfg.infraFDs :: fd.name == cfg.mappings[0].source && fd.server == r.value
    ensures r.None? && cfg.mappings != [] && Distinct(NamesOf(cfg.infraFDs)) ==>
              forall fd | fd in cfg.infraFDs && fd.name == cfg.mappings[0].source ::
                fd.server == "" || exists dest | dest in cfg.destFDs :: dest.server == fd.server
  {
    if cfg.mappings != [] && Distinct(NamesOf(cfg.infraFDs)) {
      OneByName(cfg.infraFDs, cfg.mappings[0].source);
    }
    r := SourceServer(cfg);
    if r.None? {
      return;
    }
    for i := 0 to |cfg.destFDs|
      invariant forall k | 0 <= k < i :: cfg.destFDs[k].server != r.value
    {
      if cfg.destFDs[i].server == r.value {
        assert cfg.destFDs[i] in cfg.destFDs;
        return None;
      }
    }
  }

  // ----- Coverage -----

  /** Counts the matching failure domains of one workspace. */
  method MatchFailureDomain(ws: Workspace, fds: seq<FailureDomain>) returns (count: nat, last: nat)
    ensures count == 0 <==> forall i | 0 <= i < |fds| :: !Matches(ws, fds[i])
    ensures count <= 1 <==> AtMostOneMatch(ws, fds)
    ensures count == 1 ==> MatchesOnly(ws, fds, last)
  {
    hide Matches;
    count, last := 0, 0;
    ghost var previous := 0;
    for i := 0 to |fds|
      invariant count == 0 ==> forall k | 0 <= k < i :: !Matches(ws, fds[k])
      invariant count > 0 ==> last < i && Matches(ws, fds[last])
      invariant count == 1 ==> forall k | 0 <= k < i && k != last :: !Matches(ws, fds[k])
      invariant count > 1 ==> previous < last && Matches(ws, fds[previous])
    {
      if Matches(ws, fds[i]) {
        previous := last;
        count, last := count + 1, i;
      }
    }
  }

  lemma SourceDecidesMapping(cfg: Config, i: nat, j: nat)
    requires Distinct(SourcesOf(cfg.mappings)) && i < |cfg.mappings| && j < |cfg.mappings|
    ensures cfg.mappings[i].source == cfg.mappings[j].source ==> i == j
  {
    var s := SourcesOf(cfg.mappings);
    assert s[i] == cfg.mappings[i].source && s[j] == cfg.mappings[j].source;
  }

  /** Failure domain fd takes the workspace, mapping m maps it, and r is recorded in the family of mapping m's destination. */
  predicate TakenBy(cfg: Config, recorded: seq<string>, server: string, ws: Workspace, fd: FailureDomain, m: nat, r: string) {
    && fd in cfg.infraFDs && fd.server == server && Matches(ws, fd)
    && m < |cfg.mappings| && cfg.mappings[m].source == fd.name
    && r in recorded && InFamily(r, BaseName(cfg.infraID, cfg.mappings[m].destination, recorded))
  }

  /**
   A source is covered exactly if no two failure domains of its vCenter take it and, when it runs, one takes
   it that is mapped to a destination with a recorded name.
   */
  lemma CoveredMeansRecorded(cfg: Config, sets: Cluster, recorded: seq<string>, server: string, n: string)
    requires OnServer(sets, n, server)
    ensures
      var fds, ws := OnlyServer(cfg.infraFDs, server), sets[n].provider.workspace;
      SourceCovered(cfg, sets, recorded, server, n) <==>
        && (forall a, b | 0 <= a < b < |fds| :: !Matches(ws, fds[a]) || !Matches(ws, fds[b]))
        && (Desired(sets[n]) == 0 || exists fd, m, r :: TakenBy(cfg, recorded, server, ws, fd, m, r))
  {
    hide InFamily, BaseName, Matches;
    var fds, ws := OnlyServer(cfg.infraFDs, server), sets[n].provider.workspace;
    if SourceCovered(cfg, sets, recorded, server, n) && Desired(sets[n]) > 0 {
      var i, m :| 0 <= i < |fds| && 0 <= m < |cfg.mappings| && MatchesOnly(ws, fds, i) && cfg.mappings[m].source == fds[i].name
                  && RecordedFamily(recorded, BaseName(cfg.infraID, cfg.mappings[m].destination, recorded)) != [];
      var family := RecordedFamily(recorded, BaseName(cfg.infraID, cfg.mappings[m].destination, recorded));
      assert family[0] in family && fds[i] in fds;
      assert TakenBy(cfg, recorded, server, ws, fds[i], m, family[0]);
    }
    if fd, m: nat, r :| TakenBy(cfg, recorded, server, ws, fd, m, r) && AtMostOneMatch(ws, fds) {
      var i :| 0 <= i < |fds| && fds[i] == fd;
      assert MatchesOnly(ws, fds, i);
      assert r in RecordedFamily(recorded, BaseName(cfg.infraID, cfg.mappings[m].destination, recorded));
    }
  }

  /** The coverage gate for one source MachineSet. */
  method CheckSourceCovered(cfg: Config, sets: Cluster, recorded: seq<string>, server: string, n: string) returns (ok: bool)
    requires OnServer(sets, n, server) && Distinct(SourcesOf(cfg.mappings))
    ensures ok <==> SourceCovered(cfg, sets, recorded, server, n)
    ensures
      var fds, ws := OnlyServer(cfg.infraFDs, server), sets[n].provider.workspace;
      ok <==>
        && (forall a, b | 0 <= a < b < |fds| :: !Matches(ws, fds[a]) || !Matches(ws, fds[b]))
        && (Desired(sets[n]) == 0 || exists fd, m, r :: TakenBy(cfg, recorded, server, ws, fd, m, r))
  {
    hide TakenBy, InFamily, BaseName, Matches;
    CoveredMeansRecorded(cfg, sets, recorded, server, n);
    var fds, ws := OnlyServer(cfg.infraFDs, server), sets[n].provider.workspace;
    var count, i := MatchFailureDomain(ws, fds);
    if count > 1 {
      return false;
    }
    if Desired(sets[n]) == 0 {
      return true;
    }
    if count == 0 {
      return false;
    }
    for m := 0 to |cfg.mappings|
      invariant forall k | 0 <= k < m :: cfg.mappings[k].source != fds[i].name
    {
      if cfg.mappings[m].source == fds[i].name {
        ok := RecordedFamily(recorded, BaseName(cfg.infraID, cfg.mappings[m].destination, recorded)) != [];
        if !ok {
          forall j, k | 0 <= j < |fds| && 0 <= k < |cfg.mappings| && MatchesOnly(ws, fds, j) && cfg.mappings[k].source == fds[j].name
            ensures k == m
          {
            assert j == i;
            SourceDecidesMapping(cfg, k, m);
          }
        }
        return;
      }
    }
    forall j, k | 0 <= j < |fds| && 0 <= k < |cfg.mappings| && MatchesOnly(ws, fds, j)
      ensures cfg.mappings[k].source != fds[j].name
    {
      assert j == i;
    }
    return false;
  }

  method ValidateCoverage(cfg: Config, sets: Cluster, recorded: seq<string>, server: string) returns (ok: bool)
    requires Distinct(SourcesOf(cfg.mappings))
    ensures ok <==> CoverageHolds(cfg, sets, recorded, server)
  {
    var todo := ByVCenter(sets, server);
    while todo != {}
      invariant todo <= ByVCenter(sets, server)
      invariant forall n | n in ByVCenter(sets, server) - todo :: SourceCovered(cfg, sets, recorded, server, n)
      decreases |todo|
    {
      var n :| n in todo;
      var covered := CheckSourceCovered(cfg, sets, recorded, server, n);
      if !covered {
        return false;
      }
      todo := todo - {n};
    }
    return true;
  }
}
