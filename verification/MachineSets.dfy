/**
 Worker MachineSets and the read-only decisions of the workload step: which MachineSets a failure
 domain selects, how a destination base relates to its sources, which destination names are
 expected, and when Step 1, name recovery and the coverage gate accept.
 */
module MachineSets {
  import opened FailureDomains
  import opened Names
  import opened Sums

  /** A provider spec that cannot be decoded, one without a workspace, or a placed one. */
  datatype ProviderSpec = Unreadable | NoWorkspace | Placed(workspace: Workspace)

  /** copyOf is the source-machineset annotation ("" when absent), aggregate the legacy-aggregate one. */
  datatype MachineSet = MachineSet(replicas: Option<nat>, provider: ProviderSpec, copyOf: string, aggregate: bool)

  /** The MachineSets of the machine API namespace, by name. */
  type Cluster = map<string, MachineSet>

  /** What one workload reconcile reads from the Infrastructure and the migration and never changes. */
  datatype Config = Config(
    infraID: string, mappings: seq<Pair>, infraFDs: seq<FailureDomain>, destFDs: seq<FailureDomain>)

  const MAX_RECORDED := 256

  /** Missing replicas default to one. */
  function Desired(ms: MachineSet): nat {
    if ms.replicas.None? then 1 else ms.replicas.value
  }

  function Weights(sets: Cluster): map<string, nat> {
    map n | n in sets :: Desired(sets[n])
  }

  /** MachineSet names the API server accepts are not empty and do not end with a hyphen. */
  predicate ValidName(n: string) {
    n != [] && n[|n| - 1] != '-'
  }

  predicate ValidCluster(sets: Cluster) {
    forall n | n in sets :: ValidName(n)
  }

  predicate OnServer(sets: Cluster, n: string, server: string) {
    && n in sets
    && sets[n].provider.Placed?
    && sets[n].provider.workspace.server == server
  }

  function ByVCenter(sets: Cluster, server: string): set<string> {
    set n | n in sets && OnServer(sets, n, server)
  }

  function ByFailureDomain(sets: Cluster, server: string, fd: FailureDomain): set<string> {
    set n | n in sets && OnServer(sets, n, server) && Matches(sets[n].provider.workspace, fd)
  }

  // ----- Source and destination of a mapping -----

  function SourceServer(cfg: Config): Option<string> {
    if cfg.mappings == [] then None
    else match FindByName(cfg.infraFDs, cfg.mappings[0].source)
      case None => None
      case Some(fd) => if fd.server == "" then None else Some(fd.server)
  }

  predicate IsDestination(cfg: Config, server: string) {
    exists fd | fd in cfg.destFDs :: fd.server == server
  }

  function OnlyServer(fds: seq<FailureDomain>, server: string): (r: seq<FailureDomain>)
    ensures forall fd :: fd in r <==> fd in fds && fd.server == server
  {
    if fds == [] then []
    else if fds[0].server == server then [fds[0]] + OnlyServer(fds[1..], server)
    else OnlyServer(fds[1..], server)
  }

  function Destination(cfg: Config, m: nat): Option<FailureDomain>
    requires m < |cfg.mappings|
  {
    FindByName(cfg.destFDs, cfg.mappings[m].destination)
  }

  /** The MachineSets of the source vCenter that fall into mapping m's source failure domain. */
  function Matched(cfg: Config, sets: Cluster, server: string, m: nat): set<string>
    requires m < |cfg.mappings|
  {
    match FindByName(OnlyServer(cfg.infraFDs, server), cfg.mappings[m].source)
    case None => {}
    case Some(fd) => ByFailureDomain(sets, server, fd)
  }

  /** The MachineSets that stand in for mapping m on its destination server. */
  function Replacements(cfg: Config, sets: Cluster, m: nat): set<string>
    requires m < |cfg.mappings|
  {
    match Destination(cfg, m)
    case None => {}
    case Some(fd) =>
      set n | n in sets && OnServer(sets, n, fd.server) && Owns(cfg.infraID, cfg.mappings[m].destination, n)
  }

  /** What preflight established before the mapping became immutable. */
  ghost predicate WellFormed(cfg: Config) {
    && ValidInfraID(cfg.infraID)
    && Distinct(SourcesOf(cfg.mappings))
    && Distinct(DestinationsOf(cfg.mappings))
    && Distinct(NamesOf(cfg.infraFDs))
    && (forall i, j | 0 <= i < j < |cfg.mappings| ::
         !FamiliesOverlap(Truncate(FullName(cfg.infraID, cfg.mappings[i].destination)),
                          Truncate(FullName(cfg.infraID, cfg.mappings[j].destination))))
  }

  // ----- Recorded names and the resolved base -----

  function RecordedFamily(recorded: seq<string>, base: string): (r: seq<string>)
    ensures forall n :: n in r <==> n in recorded && InFamily(n, base)
  {
    if recorded == [] then []
    else
      var front, last := recorded[..|recorded| - 1], recorded[|recorded| - 1];
      assert recorded == front + [last];
      RecordedFamily(front, base) + (if InFamily(last, base) then [last] else [])
  }

  /** The base name, keeping the untruncated identity of a MachineSet the released operator created. */
  function ResolveBase(infraID: string, fd: string, recorded: seq<string>, sets: Cluster): string {
    var base, legacy := BaseName(infraID, fd, recorded), LegacyName(infraID, fd);
    if legacy == base || |legacy| > MAX_NAME_LEN || RecordedFamily(recorded, base) != [] then base
    else if legacy in sets then legacy
    else base
  }

  lemma ResolveBaseOwned(infraID: string, fd: string, recorded: seq<string>, sets: Cluster)
    requires ValidCluster(sets)
    ensures ResolveBase(infraID, fd, recorded, sets) in {FullName(infraID, fd), Truncate(FullName(infraID, fd))}
  {
    if Sanitize(fd) == "" {
      assert !ValidName(LegacyName(infraID, fd));
    }
  }

  /** The untruncated name is kept exactly where it stands, is short enough and nothing is recorded in the base's family. */
  lemma LegacyKept(infraID: string, fd: string, recorded: seq<string>, sets: Cluster)
    ensures
      var base, legacy := BaseName(infraID, fd, recorded), infraID + "-worker-" + Sanitize(fd);
      ResolveBase(infraID, fd, recorded, sets) ==
      if legacy in sets && |legacy| <= 63 && forall n | n in recorded :: !InFamily(n, base) then legacy else base
  {
    hide InFamily, BaseName, Sanitize;
    var family := RecordedFamily(recorded, BaseName(infraID, fd, recorded));
    assert family != [] ==> family[0] in family && family[0] in recorded;
  }

  // ----- Layout classification -----

  datatype Layout = PerSource | Aggregate | Ambiguous

  datatype Problem =
    | UnreadableSpec(name: string)
    | NameCollision(name: string)
    | AggregateTooSmall(name: string)
    | CopyTooSmall(name: string)
    | AmbiguousBase(name: string)

  datatype Verdict<+T> = Ok(value: T) | Refused(problem: Problem)

  /** How an existing destination base relates to the sorted sources it may stand for. */
  ghost function Classify(sets: Cluster, base: string, sources: seq<string>, server: string, recorded: seq<string>)
    : Verdict<Layout>
  {
    var total := ListSum(Weights(sets), sources);
    if base !in sets then Ok(PerSource)
    else if sets[base].provider.Unreadable? then Refused(UnreadableSpec(base))
    else if !OnServer(sets, base, server) then Ok(PerSource)
    else if sets[base].aggregate then
      if Desired(sets[base]) >= total then Ok(Aggregate) else Refused(AggregateTooSmall(base))
    else if |sources| < 2 then Ok(PerSource)
    else if |RecordedFamily(recorded, base)| > 1 then Ok(PerSource)
    else if sets[base].copyOf != "" then Ok(PerSource)
    else if exists i | 1 <= i < |sources| :: CopyName(base, i) in sets then Ok(PerSource)
    else if total == 0 || Desired(sets[base]) == total then Ok(Aggregate)
    else Ok(Ambiguous)
  }

  // ----- Expected destination names -----

  datatype Expectation = Expectation(names: set<string>, aggregate: bool)

  function CopyNames(base: string, count: nat): set<string> {
    set i | 0 <= i < count :: CopyName(base, i)
  }

  /** An existing copy that is smaller than the source at its position, and why it is refused. */
  function CopyProblem(sets: Cluster, base: string, sources: seq<string>, server: string, i: nat): Option<Problem>
    requires i < |sources|
  {
    var name := CopyName(base, i);
    if name in sets && Desired(sets[name]) < At(Weights(sets), sources[i]) then
      if sets[name].provider.Unreadable? then Some(UnreadableSpec(name))
      else if !OnServer(sets, name, server) then Some(NameCollision(name))
      else Some(CopyTooSmall(name))
    else None
  }

  /** The problem of the first refused copy among the first k. */
  function FirstCopyProblem(sets: Cluster, base: string, sources: seq<string>, server: string, k: nat): (r: Option<Problem>)
    requires k <= |sources|
    ensures r.None? <==> forall i | 0 <= i < k :: CopyProblem(sets, base, sources, server, i).None?
  {
    if k == 0 then None
    else
      var earlier := FirstCopyProblem(sets, base, sources, server, k - 1);
      if earlier.Some? then earlier else CopyProblem(sets, base, sources, server, k - 1)
  }

  /** The destination names that must exist for one mapping: recorded ones, plus those derived from the sources. */
  ghost function Expected(sets: Cluster, base: string, sources: seq<string>, server: string, recorded: seq<string>)
    : Verdict<Expectation>
  {
    match Classify(sets, base, sources, server, recorded)
    case Refused(p) => Refused(p)
    case Ok(Ambiguous) => Refused(AmbiguousBase(base))
    case Ok(Aggregate) => Ok(Expectation(Elements(RecordedFamily(recorded, base)) + {base}, true))
    case Ok(PerSource) =>
      var problem := FirstCopyProblem(sets, base, sources, server, |sources|);
      if problem.Some? then Refused(problem.value)
      else Ok(Expectation(Elements(RecordedFamily(recorded, base)) + CopyNames(base, |sources|), false))
  }

  lemma ExpectedInFamily(sets: Cluster, base: string, sources: seq<string>, server: string, recorded: seq<string>, n: string)
    requires Expected(sets, base, sources, server, recorded).Ok?
    requires n in Expected(sets, base, sources, server, recorded).value.names
    ensures InFamily(n, base)
  {
    if n in CopyNames(base, |sources|) {
      var i :| 0 <= i < |sources| && n == CopyName(base, i);
      CopyInFamily(base, i);
    }
  }

  // ----- Step 1: do the expected destination MachineSets exist? -----

  /** A running source's copy must not carry another source's identity. */
  predicate IdentityAt(sets: Cluster, base: string, sources: seq<string>, i: nat)
    requires i < |sources|
  {
    var name := CopyName(base, i);
    (name in sets && At(Weights(sets), sources[i]) > 0 && sets[name].copyOf != "") ==> sets[name].copyOf == sources[i]
  }

  predicate IdentityHolds(sets: Cluster, base: string, sources: seq<string>) {
    forall i | 0 <= i < |sources| :: IdentityAt(sets, base, sources, i)
  }

  predicate AllOnServer(sets: Cluster, names: set<string>, server: string) {
    forall n | n in names :: OnServer(sets, n, server)
  }

  function MappingBase(cfg: Config, sets: Cluster, recorded: seq<string>, m: nat): string
    requires m < |cfg.mappings|
  {
    ResolveBase(cfg.infraID, cfg.mappings[m].destination, recorded, sets)
  }

  /** The sorted sources Step 1 and the plan see for a mapping whose source failure domain still exists. */
  ghost function Sources(cfg: Config, sets: Cluster, fd: FailureDomain): seq<string> {
    Sorted(ByFailureDomain(sets, fd.server, fd))
  }

  /** Step 1 accepts mapping m. */
  ghost predicate MappingPasses(cfg: Config, sets: Cluster, recorded: seq<string>, m: nat)
    requires m < |cfg.mappings|
  {
    var base := MappingBase(cfg, sets, recorded, m);
    var family := Elements(RecordedFamily(recorded, base));
    && Destination(cfg, m).Some?
    && var server := Destination(cfg, m).value.server;
    match FindByName(cfg.infraFDs, cfg.mappings[m].source)
    case None => AllOnServer(sets, if family == {} then {base} else family, server)
    case Some(fd) =>
      var sources := Sources(cfg, sets, fd);
      && fd.server != ""
      && ((sources == [] && family == {}) || ExpectationMet(sets, base, sources, server, recorded))
  }

  ghost predicate ExpectationMet(sets: Cluster, base: string, sources: seq<string>, server: string, recorded: seq<string>) {
    && Expected(sets, base, sources, server, recorded).Ok?
    && var e := Expected(sets, base, sources, server, recorded).value;
    && AllOnServer(sets, e.names, server)
    && (!e.aggregate ==> IdentityHolds(sets, base, sources))
  }

  /** A target stands on another server, or a running source's copy carries another identity. */
  ghost predicate TargetsBroken(sets: Cluster, names: set<string>, server: string, base: string, sources: seq<string>, positional: bool) {
    || (exists n | n in names :: n in sets && !OnServer(sets, n, server))
    || (positional && !IdentityHolds(sets, base, sources))
  }

  /** Step 1 fails rather than finding something missing: no names can be expected, or a target is broken. */
  ghost predicate ExpectationBroken(sets: Cluster, base: string, sources: seq<string>, server: string, recorded: seq<string>) {
    || Expected(sets, base, sources, server, recorded).Refused?
    || var e := Expected(sets, base, sources, server, recorded).value;
       TargetsBroken(sets, e.names, server, base, sources, !e.aggregate)
  }

  ghost predicate MappingBroken(cfg: Config, sets: Cluster, recorded: seq<string>, m: nat)
    requires m < |cfg.mappings|
  {
    var base := MappingBase(cfg, sets, recorded, m);
    var family := Elements(RecordedFamily(recorded, base));
    || Destination(cfg, m).None?
    || match FindByName(cfg.infraFDs, cfg.mappings[m].source)
       case None => TargetsBroken(sets, if family == {} then {base} else family, Destination(cfg, m).value.server, base, [], false)
       case Some(fd) =>
         var sources := Sources(cfg, sets, fd);
         || fd.server == ""
         || (!(sources == [] && family == {}) && ExpectationBroken(sets, base, sources, Destination(cfg, m).value.server, recorded))
  }

  ghost predicate Accepts(cfg: Config, sets: Cluster, recorded: seq<string>) {
    forall m | 0 <= m < |cfg.mappings| :: MappingPasses(cfg, sets, recorded, m)
  }

  // ----- Step 6: name recovery and the coverage gate -----

  ghost function MatchedSources(cfg: Config, sets: Cluster, server: string, m: nat): seq<string>
    requires m < |cfg.mappings|
  {
    Sorted(Matched(cfg, sets, server, m))
  }

  /** Recovery accepts mapping m: it is intentionally empty, or all its expected names exist where they should. */
  ghost predicate MappingRecovers(cfg: Config, sets: Cluster, recorded: seq<string>, server: string, m: nat)
    requires m < |cfg.mappings|
  {
    var base := MappingBase(cfg, sets, recorded, m);
    var sources := MatchedSources(cfg, sets, server, m);
    && Destination(cfg, m).Some?
    && var destServer := Destination(cfg, m).value.server;
    || (sources == [] && RecordedFamily(recorded, base) == [])
    || (&& Expected(sets, base, sources, destServer, recorded).Ok?
        && AllOnServer(sets, Expected(sets, base, sources, destServer, recorded).value.names, destServer))
  }

  ghost predicate Recovers(cfg: Config, sets: Cluster, recorded: seq<string>, server: string) {
    forall m | 0 <= m < |cfg.mappings| :: MappingRecovers(cfg, sets, recorded, server, m)
  }

  /** The failure domain of the source vCenter that a workspace falls into, by position. */
  predicate MatchesOnly(ws: Workspace, fds: seq<FailureDomain>, i: nat) {
    && i < |fds|
    && Matches(ws, fds[i])
    && forall j | 0 <= j < |fds| && j != i :: !Matches(ws, fds[j])
  }

  /** The coverage gate for one source MachineSet. */
  ghost predicate SourceCovered(cfg: Config, sets: Cluster, recorded: seq<string>, server: string, n: string)
    requires OnServer(sets, n, server)
  {
    var fds, ws := OnlyServer(cfg.infraFDs, server), sets[n].provider.workspace;
    && AtMostOneMatch(ws, fds)
    && (Desired(sets[n]) > 0 ==>
          exists i, m | 0 <= i < |fds| && 0 <= m < |cfg.mappings| ::
            && MatchesOnly(ws, fds, i)
            && cfg.mappings[m].source == fds[i].name
            && RecordedFamily(recorded, BaseName(cfg.infraID, cfg.mappings[m].destination, recorded)) != [])
  }

  ghost predicate CoverageHolds(cfg: Config, sets: Cluster, recorded: seq<string>, server: string) {
    forall n | n in ByVCenter(sets, server) :: SourceCovered(cfg, sets, recorded, server, n)
  }
}
