/**
 Every interleaving of reconcilers, users and the API server on one object key. The store is the list
 of versions the key has had; a write is accepted only on top of the version it was computed from, so a
 reconcile that started long ago still merges onto the last one.
 */
module StatusHistory {
  import opened FailureDomains
  import opened Sums
  import opened MigrationStatus

  /** None while no object of that name exists. */
  type Version = Option<Object>

  datatype Action =
    | Create(uid: nat, spec: Spec, allow: bool)
    | EditSpec(spec: Spec)
    | Annotate(allow: bool)
    | RequestDelete(bump: bool)
    | Remove
    | Publish(start: nat, work: Work, closing: Closing, now: int)
    | PersistNames(start: nat, names: seq<string>)
    | PersistSource(start: nat, server: string)
    | Finalize(start: nat)

  /** The closing permission check of a reconcile: the version it read, or that it could not be read. */
  datatype Closing = ReadAt(version: nat) | ReadFailed

  /** The execution gate of a reconcile that started from o. */
  predicate Permits(o: Object, v: Version) {
    && v.Some? && !v.value.deleting
    && v.value.uid == o.uid && v.value.generation == o.generation && v.value.spec.state == Running
  }

  /** Completion is recorded for the spec the object has now. */
  predicate CompleteForSpec(o: Object) {
    && IsTrue(o.status.conditions, Ready)
    && o.status.completionTime.Some?
    && o.status.completionHash == Some(Digest(o.spec))
  }

  /** The retention finalizer this version should carry. */
  function Retained(o: Object): bool {
    if !o.deleting then true
    else o.finalizer && !CompleteForSpec(o) && !o.allowDeletion
  }

  predicate FreshUid(log: seq<Version>, uid: nat) {
    forall k | 0 <= k < |log| :: log[k].Some? ==> log[k].value.uid != uid
  }

  /** A reconcile of object o may publish this work: a stage's outcome after a closing check that permits, or a failure after one that could not be made. */
  predicate MayPublish(log: seq<Version>, o: Object, start: nat, w: Work, closing: Closing, now: int) {
    match w
    case Refuse(_, _) => true
    case Pause(_) => o.spec.state == Suspended
    case Resume => o.spec.state == Running
    case Begin => o.spec.state == Running
    case Handle(report) =>
      && o.spec.state == Running
      && (FirstIncomplete(Opened(o, now), 0).Some? ==>
            match closing
            case ReadAt(c) => start <= c < |log| && Permits(o, log[c])
            case ReadFailed => report.verdict == No)
  }

  /** A reconcile that started from version start still finds the object it started from. */
  predicate SameObject(log: seq<Version>, start: nat) {
    && 0 <= start < |log| && log[start].Some?
    && log[|log| - 1].Some? && log[|log| - 1].value.uid == log[start].value.uid
  }

  predicate Allowed(log: seq<Version>, a: Action)
    requires log != []
  {
    var last := log[|log| - 1];
    match a
    case Create(uid, _, _) => last.None? && FreshUid(log, uid)
    case EditSpec(spec) => last.Some? && spec != last.value.spec
    case Annotate(_) => last.Some?
    case RequestDelete(_) => last.Some? && !last.value.deleting
    case Remove => last.Some? && last.value.deleting && !last.value.finalizer
    case Publish(start, w, closing, now) => SameObject(log, start) && MayPublish(log, log[start].value, start, w, closing, now)
    case PersistNames(start, _) => SameObject(log, start)
    case PersistSource(start, server) => SameObject(log, start) && last.value.status.source == "" && server != ""
    case Finalize(start) => start < |log| && last.Some? && last.value.finalizer != Retained(last.value)
  }

  function Perform(log: seq<Version>, a: Action): Version
    requires log != [] && Allowed(log, a)
  {
    var last := log[|log| - 1];
    match a
    case Create(uid, spec, allow) => Some(Object(uid, 1, spec, false, false, allow, EMPTY_STATUS))
    case EditSpec(spec) => Some(last.value.(spec := spec, generation := last.value.generation + 1))
    case Annotate(allow) => Some(last.value.(allowDeletion := allow))
    case RequestDelete(bump) =>
      if !last.value.finalizer then None
      else Some(last.value.(deleting := true, generation := last.value.generation + (if bump then 1 else 0)))
    case Remove => None
    case Publish(start, w, _, now) =>
      var o := log[start].value;
      Some(last.value.(status := MergedStatus(o, Local(o, w, now), last.value)))
    case PersistNames(_, names) =>
      Some(last.value.(status := last.value.status.(names := MergeNames(last.value.status.names, names))))
    case PersistSource(_, server) => Some(last.value.(status := last.value.status.(source := server)))
    case Finalize(_) => Some(last.value.(finalizer := Retained(last.value)))
  }

  /** log is what the actions make of an empty store. */
  ghost predicate IsHistory(log: seq<Version>, actions: seq<Action>) {
    && |log| == |actions| + 1 && log[0] == None
    && forall k | 0 <= k < |actions| :: Allowed(log[..k + 1], actions[k]) && log[k + 1] == Perform(log[..k + 1], actions[k])
  }

  // ----- Objects only grow -----

  /** What holds between two versions of the same object, the first no later than the second. */
  ghost predicate Grows(a: Object, b: Object) {
    && a.generation <= b.generation
    && (a.generation == b.generation ==> a.spec == b.spec)
    && (a.deleting ==> b.deleting)
    && (forall t :: IsTrue(a.status.conditions, t) ==> IsTrue(b.status.conditions, t))
    && a.status.names <= b.status.names
    && (Distinct(a.status.names) ==> Distinct(b.status.names))
    && (a.status.mappings != [] ==> b.status.mappings == a.status.mappings)
    && (a.status.source != "" ==> b.status.source == a.status.source)
    && (a.status.startTime.Some? ==> b.status.startTime == a.status.startTime)
  }

  lemma MergeGrows(o: Object, mine: Status, l: Object)
    ensures Grows(l, l.(status := MergedStatus(o, mine, l)))
  {
    hide MergedConditions, MergeNames;
    var cleared := if ClearsRejection(o, mine, l) then l.status.conditions - {Accepted} else l.status.conditions;
    forall t | IsTrue(l.status.conditions, t)
      ensures IsTrue(MergedConditions(o.status.conditions, mine.conditions, cleared, l.generation), t)
    {
      MergeKeepsTrue(o.status.conditions, mine.conditions, cleared, l.generation, t);
    }
  }

  lemma StepGrows(log: seq<Version>, a: Action)
    requires log != [] && Allowed(log, a) && log[|log| - 1].Some? && Perform(log, a).Some?
    ensures Perform(log, a).value.uid == log[|log| - 1].value.uid
    ensures Grows(log[|log| - 1].value, Perform(log, a).value)
  {
    hide MergedStatus, Local, MergeNames, Retained;
    if a.Publish? {
      var o := log[a.start].value;
      MergeGrows(o, Local(o, a.work, a.now), log[|log| - 1].value);
    }
  }

  /** A name that comes back after a deletion is a different object. */
  lemma SameUidBefore(log: seq<Version>, actions: seq<Action>, i: nat, j: nat)
    requires IsHistory(log, actions) && i < j < |log| && log[i].Some? && log[j].Some? && log[i].value.uid == log[j].value.uid
    ensures log[j - 1].Some? && log[j - 1].value.uid == log[j].value.uid
    ensures Grows(log[j - 1].value, log[j].value)
  {
    hide MergedStatus, Local, MergeNames, Grows;
    var before, a := log[..j], actions[j - 1];
    assert log[..j - 1 + 1] == before && Allowed(before, a) && log[j] == Perform(before, a);
    assert before[i] == log[i] && before[|before| - 1] == log[j - 1];
    if log[j - 1].Some? {
      StepGrows(before, a);
    }
  }

  /**
   Monotone status: between any two versions of one object, whoever wrote in between, generations do not
   go back, a stored success is never withdrawn, names are only appended, and the mappings and the source
   vCenter never change once recorded.
   */
  lemma {:induction false} StatusOnlyGrows(log: seq<Version>, actions: seq<Action>, i: nat, j: nat)
    requires IsHistory(log, actions) && i <= j < |log| && log[i].Some? && log[j].Some? && log[i].value.uid == log[j].value.uid
    ensures Grows(log[i].value, log[j].value)
    decreases j
  {
    hide IsHistory;
    if i < j {
      SameUidBefore(log, actions, i, j);
      StatusOnlyGrows(log, actions, i, j - 1);
    }
  }

  /** An object's versions are contiguous. */
  lemma {:induction false} ObjectContiguous(log: seq<Version>, actions: seq<Action>, i: nat, k: nat, j: nat)
    requires IsHistory(log, actions) && i <= k <= j < |log|
    requires log[i].Some? && log[j].Some? && log[i].value.uid == log[j].value.uid
    ensures log[k].Some? && log[k].value.uid == log[i].value.uid
    decreases j
  {
    hide IsHistory, Grows;
    if k < j {
      SameUidBefore(log, actions, i, j);
      ObjectContiguous(log, actions, i, k, j - 1);
    }
  }
}
