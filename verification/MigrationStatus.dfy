/**
 The migration object and what one reconcile does to its own copy of the status: which conditions it
 may change, and how those changes are merged onto the latest stored object.
 */
module MigrationStatus {
  import opened FailureDomains
  import opened Sums

  datatype ConditionType =
    | Accepted
    | InfrastructurePrepared | DestinationInitialized | MultiSiteConfigured | WorkloadMigrated | SourceCleaned | Ready

  /** The stages in the order in which they are worked on. */
  const ORDER: seq<ConditionType> :=
    [InfrastructurePrepared, DestinationInitialized, MultiSiteConfigured, WorkloadMigrated, SourceCleaned, Ready]

  datatype Truth = Yes | No | Unknown

  datatype Reason =
    | Progressing | Completed | Failed | MappingRejected | Paused | DeletionBlocked | UnsupportedName | Other(text: string)

  datatype Condition = Condition(status: Truth, reason: Reason, message: string, observed: nat, transition: int)

  type Conditions = map<ConditionType, Condition>

  datatype RunState = Pending | Running | Suspended

  datatype Spec = Spec(state: RunState, mappings: seq<Pair>, rest: string)

  /** The digest of a spec; two specs share a digest only if they are equal. */
  datatype Digest = Digest(spec: Spec)

  datatype Status = Status(
    conditions: Conditions, mappings: seq<Pair>, names: seq<string>, source: string,
    startTime: Option<int>, completionTime: Option<int>, completionHash: Option<Digest>)

  datatype Object = Object(
    uid: nat, generation: nat, spec: Spec, deleting: bool, finalizer: bool, allowDeletion: bool, status: Status)

  const EMPTY_STATUS := Status(map[], [], [], "", None, None, None)

  // ----- Conditions -----

  predicate IsTrue(cs: Conditions, t: ConditionType) {
    t in cs && cs[t].status == Yes
  }

  /** A stage is true only if every earlier one is. */
  predicate PrefixClosed(cs: Conditions) {
    forall i, j | 0 <= i < j < |ORDER| :: IsTrue(cs, ORDER[j]) ==> IsTrue(cs, ORDER[i])
  }

  /** Setting a condition keeps its transition time unless its status changes. */
  function SetCondition(cs: Conditions, t: ConditionType, c: Condition): Conditions {
    if t in cs && cs[t].status == c.status then cs[t := c.(transition := cs[t].transition)] else cs[t := c]
  }

  predicate IsMappingRejection(cs: Conditions) {
    Accepted in cs && cs[Accepted].status == No && cs[Accepted].reason in {MappingRejected, Failed}
  }

  /** The first stage that is not true, from position k on. */
  function FirstIncomplete(cs: Conditions, k: nat): (r: Option<nat>)
    requires k <= |ORDER|
    ensures r.Some? ==> k <= r.value < |ORDER| && !IsTrue(cs, ORDER[r.value])
    ensures forall i | k <= i < (if r.Some? then r.value else |ORDER|) :: IsTrue(cs, ORDER[i])
    decreases |ORDER| - k
  {
    if k == |ORDER| then None
    else if !IsTrue(cs, ORDER[k]) then Some(k)
    else FirstIncomplete(cs, k + 1)
  }

  // ----- One reconcile's own edits -----

  /** What the handler of the first incomplete stage reports, and the names and mappings it recorded. */
  datatype Report = Report(verdict: Truth, reason: Reason, message: string, names: seq<string>, mappings: seq<Pair>)

  datatype Work =
    | Refuse(reason: Reason, message: string)
    | Pause(message: string)
    | Resume
    | Begin
    | Handle(report: Report)

  function Resumed(o: Object, now: int): Conditions {
    var cs := o.status.conditions;
    if Ready in cs && cs[Ready].reason == Paused
    then SetCondition(cs, Ready, Condition(No, Progressing, "Migration is running", o.generation, now))
    else cs
  }

  /** The conditions a handler starts from: resumed, a recovered mapping rejection dropped, Ready seeded. */
  function Opened(o: Object, now: int): Conditions {
    var cs := Resumed(o, now);
    var kept := if IsMappingRejection(cs) then cs - {Accepted} else cs;
    if Ready in kept then kept
    else SetCondition(kept, Ready, Condition(No, Progressing, "Waiting for migration workflow to complete", o.generation, now))
  }

  function Handled(o: Object, report: Report, now: int): Status {
    var cs := Opened(o, now);
    var begun := o.status.(
      conditions := cs,
      startTime := if o.status.startTime.None? then Some(now) else o.status.startTime);
    match FirstIncomplete(cs, 0)
    case None => begun
    case Some(i) =>
      begun.(
        conditions := SetCondition(cs, ORDER[i], Condition(report.verdict, report.reason, report.message, o.generation, now)),
        names := MergeNames(o.status.names, report.names),
        mappings := if o.status.mappings == [] then report.mappings else o.status.mappings,
        completionTime := if ORDER[i] == Ready && report.verdict == Yes then Some(now) else o.status.completionTime)
  }

  /** The status one reconcile holds in memory after its work on the object it started from. */
  function Local(o: Object, w: Work, now: int): Status {
    match w
    case Refuse(reason, message) =>
      o.status.(conditions := SetCondition(o.status.conditions, Accepted, Condition(No, reason, message, o.generation, now)))
    case Pause(message) =>
      o.status.(conditions := SetCondition(o.status.conditions, Ready, Condition(No, Paused, message, o.generation, now)))
    case Resume => o.status.(conditions := Resumed(o, now))
    case Begin => o.status.(conditions := Resumed(o, now), startTime := if o.status.startTime.None? then Some(now) else o.status.startTime)
    case Handle(report) => Handled(o, report, now)
  }

  /** The reconcile finished ensureReady: it reports Ready on the object it started from. */
  predicate Completes(o: Object, w: Work, now: int) {
    && w.Handle? && w.report.verdict == Yes
    && FirstIncomplete(Opened(o, now), 0) == Some(|ORDER| - 1)
  }

  // ----- Merging onto the latest object -----

  /** Whether a reconcile's condition of one type is to be applied to the latest ones. */
  predicate Applies(base: Conditions, mine: Conditions, latest: Conditions, generation: nat, t: ConditionType) {
    && t in mine
    && !(t in base && base[t] == mine[t])
    && mine[t].observed >= generation
    && !(IsTrue(latest, t) && mine[t].status != Yes)
  }

  /** The merged conditions, type by type. */
  function MergedConditions(base: Conditions, mine: Conditions, latest: Conditions, generation: nat): (r: Conditions)
    ensures forall t :: (t in r <==> t in latest || Applies(base, mine, latest, generation, t))
  {
    map t | t in mine.Keys + latest.Keys && (t in latest || Applies(base, mine, latest, generation, t)) ::
      if Applies(base, mine, latest, generation, t) then SetCondition(latest, t, mine[t])[t] else latest[t]
  }

  /** A rejection this reconcile saw recovered is removed, unless someone changed it meanwhile. */
  predicate ClearsRejection(o: Object, mine: Status, latest: Object) {
    && o.generation == latest.generation
    && IsMappingRejection(o.status.conditions)
    && Accepted !in mine.conditions
    && Accepted in latest.status.conditions
    && latest.status.conditions[Accepted] == o.status.conditions[Accepted]
  }

  predicate RecordsCompletion(o: Object, mine: Status, latest: Object) {
    && o.generation == latest.generation && o.spec == latest.spec
    && IsTrue(mine.conditions, Ready) && mine.conditions[Ready].observed == latest.generation
    && mine.completionTime.Some?
    && (latest.status.completionHash != Some(Digest(o.spec)) || latest.status.completionTime.None?)
  }

  /** The status written back: only this reconcile's changes, on top of what is stored. */
  function MergedStatus(o: Object, mine: Status, latest: Object): Status {
    var l := latest.status;
    var cleared := if ClearsRejection(o, mine, latest) then l.conditions - {Accepted} else l.conditions;
    var done := RecordsCompletion(o, mine, latest);
    Status(
      MergedConditions(o.status.conditions, mine.conditions, cleared, latest.generation),
      if mine.mappings != [] && l.mappings == [] && o.generation == latest.generation then mine.mappings else l.mappings,
      MergeNames(l.names, mine.names),
      l.source,
      if l.startTime.None? then mine.startTime else l.startTime,
      if done then mine.completionTime else l.completionTime,
      if done then Some(Digest(o.spec)) else l.completionHash)
  }

  // ----- What the edits may change -----

  /** Opening a reconcile makes nothing true that was not. */
  lemma OpenedTrue(o: Object, now: int, t: ConditionType)
    requires IsTrue(Opened(o, now), t)
    ensures t in o.status.conditions && o.status.conditions[t] == Opened(o, now)[t]
  {
  }

  lemma OrderDistinct(i: nat, j: nat)
    requires i < |ORDER| && j < |ORDER| && ORDER[i] == ORDER[j]
    ensures i == j
  {
  }

  lemma HandledSuccess(o: Object, report: Report, now: int, t: ConditionType) returns (j: nat)
    requires
      var mine := Handled(o, report, now).conditions;
      IsTrue(mine, t) && !(t in o.status.conditions && o.status.conditions[t] == mine[t])
    ensures report.verdict == Yes && Handled(o, report, now).conditions[t].observed == o.generation
    ensures j < |ORDER| && ORDER[j] == t && FirstIncomplete(Opened(o, now), 0) == Some(j)
  {
    hide Opened, FirstIncomplete;
    var cs := Opened(o, now);
    if IsTrue(cs, t) {
      OpenedTrue(o, now, t);
    }
    j := FirstIncomplete(cs, 0).value;
  }

  /** Only the handled stage can become true, only after all earlier ones, and only for the spec it started from. */
  lemma LocalSuccess(o: Object, w: Work, now: int, t: ConditionType) returns (j: nat)
    requires
      var mine := Local(o, w, now).conditions;
      IsTrue(mine, t) && !(t in o.status.conditions && o.status.conditions[t] == mine[t])
    ensures w.Handle? && Local(o, w, now).conditions[t].observed == o.generation
    ensures j < |ORDER| && ORDER[j] == t && forall i | 0 <= i < j :: IsTrue(o.status.conditions, ORDER[i])
    ensures t == Ready ==> Completes(o, w, now)
  {
    hide Opened, FirstIncomplete, Handled;
    j := HandledSuccess(o, w.report, now, t);
    forall i | 0 <= i < j ensures IsTrue(o.status.conditions, ORDER[i]) {
      OpenedTrue(o, now, ORDER[i]);
    }
    if t == Ready {
      OrderDistinct(j, |ORDER| - 1);
    }
  }

  /** A merge never takes away a success that is stored. */
  lemma MergeKeepsTrue(base: Conditions, mine: Conditions, latest: Conditions, generation: nat, t: ConditionType)
    requires IsTrue(latest, t)
    ensures IsTrue(MergedConditions(base, mine, latest, generation), t)
  {
  }

  /** A merge adds a success only if the reconcile brought it, for the stored generation. */
  lemma MergeAddsTrue(base: Conditions, mine: Conditions, latest: Conditions, generation: nat, t: ConditionType)
    requires IsTrue(MergedConditions(base, mine, latest, generation), t)
    ensures
      || (IsTrue(latest, t) && MergedConditions(base, mine, latest, generation)[t] == latest[t])
      || (IsTrue(mine, t) && Applies(base, mine, latest, generation, t)
          && MergedConditions(base, mine, latest, generation)[t].observed == mine[t].observed)
  {
  }
}
