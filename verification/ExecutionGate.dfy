/**
 The execution gate: permission is re-read before every mutation and once more before a stage's outcome is
 published. What a reconcile can still do after the object has drifted is stated over its whole attempt.
 */
module ExecutionGate {
  import opened FailureDomains
  import opened Sums
  import opened MigrationStatus
  import opened StatusHistory
  import opened StatusSafety

  /** Drift is permanent: once a check would deny, every later check of the same reconcile denies. */
  lemma DriftIsPermanent(log: seq<Version>, actions: seq<Action>, start: nat, d: nat, e: nat)
    requires IsHistory(log, actions) && start <= d <= e < |log| && log[start].Some?
    ensures Permits(log[start].value, log[e]) ==> Permits(log[start].value, log[d])
  {
    hide Allowed, Perform;
    var o := log[start].value;
    if Permits(o, log[e]) {
      ObjectContiguous(log, actions, start, d, e);
      StatusOnlyGrows(log, actions, start, d);
      StatusOnlyGrows(log, actions, d, e);
    }
  }

  /** A permitted check proves that nothing happened to the object since the reconcile started. */
  lemma PermittedMeansUndisturbed(log: seq<Version>, actions: seq<Action>, start: nat, c: nat, d: nat)
    requires IsHistory(log, actions) && start <= d <= c < |log| && log[start].Some?
    requires Permits(log[start].value, log[c])
    ensures log[d].Some? && log[d].value.uid == log[start].value.uid && log[d].value.spec == log[start].value.spec
    ensures log[d].value.generation == log[start].value.generation
    ensures log[d].value.spec.state == Running && !log[d].value.deleting
  {
    hide Allowed, Perform;
    ObjectContiguous(log, actions, start, d, c);
    StatusOnlyGrows(log, actions, start, d);
    StatusOnlyGrows(log, actions, d, c);
  }

  /** A check permits exactly if the object runs and has, in every version since the start, been the same, of the same generation and not being deleted. */
  lemma PermitIffUndisturbed(log: seq<Version>, actions: seq<Action>, start: nat, c: nat)
    requires IsHistory(log, actions) && start <= c < |log| && log[start].Some?
    ensures Permits(log[start].value, log[c]) <==>
              && log[start].value.spec.state == Running
              && forall d | start <= d <= c ::
                   && log[d].Some? && log[d].value.uid == log[start].value.uid
                   && log[d].value.generation == log[start].value.generation && !log[d].value.deleting
  {
    hide IsHistory;
    if Permits(log[start].value, log[c]) {
      forall d | start <= d <= c
        ensures && log[d].Some? && log[d].value.uid == log[start].value.uid
                && log[d].value.generation == log[start].value.generation && !log[d].value.deleting
                && log[d].value.spec.state == Running
      {
        PermittedMeansUndisturbed(log, actions, start, c, d);
      }
    } else if log[c].Some? && log[c].value.uid == log[start].value.uid && log[c].value.generation == log[start].value.generation {
      SameGenerationSameSpec(log, actions, start, c);
    }
  }

  // ----- One attempt at a stage -----

  datatype CheckResult = Permitted | Denied | Unreadable

  /** A permission check: the object is read live, and the read itself may fail. */
  function Checked(o: Object, v: Version, readable: bool): CheckResult {
    if !readable then Unreadable else if Permits(o, v) then Permitted else Denied
  }

  /** One mutation: the version its permission check read, and the version at which it lands. */
  datatype Mutation = Mutation(check: nat, land: nat)

  /** The handler returned a verdict, or gave up at a check that denied, which read that version. */
  datatype Ending = Ended(verdict: Truth, reason: Reason, message: string) | GaveUp(denied: nat)

  /** One reconcile's work on a stage: where it started, its checks and mutations, and what it had recorded. */
  datatype Attempt = Attempt(
    start: nat, opening: nat, mutations: seq<Mutation>, ending: Ending, names: seq<string>, mappings: seq<Pair>, closing: nat, readable: bool)

  /** The mutations of one reconcile, in order, each submitted after its own check passed. */
  ghost predicate GatedMutations(log: seq<Version>, start: nat, ms: seq<Mutation>) {
    && start < |log| && log[start].Some?
    && (forall k | 0 <= k < |ms| :: start <= ms[k].check <= ms[k].land < |log| && Permits(log[start].value, log[ms[k].check]))
    && forall k | 0 <= k < |ms| - 1 :: ms[k].land <= ms[k + 1].check
  }

  /** The attempt followed the gate: an opening check that permitted, gated mutations, and a closing check after all of them. */
  ghost predicate IsAttempt(log: seq<Version>, a: Attempt) {
    && a.start <= a.opening <= a.closing < |log| && GatedMutations(log, a.start, a.mutations)
    && Permits(log[a.start].value, log[a.opening])
    && (forall k | 0 <= k < |a.mutations| :: a.opening <= a.mutations[k].check && a.mutations[k].land <= a.closing)
    && (a.ending.GaveUp? ==> a.opening <= a.ending.denied <= a.closing && !Permits(log[a.start].value, log[a.ending.denied]))
  }

  const UNREADABLE := "reading migration execution permission"

  /** What is handed to the status update: the closing check overrides the handler, and a denial hands over nothing. */
  function Handed(log: seq<Version>, a: Attempt): Option<Report>
    requires a.start < |log| && log[a.start].Some? && a.closing < |log|
  {
    match Checked(log[a.start].value, log[a.closing], a.readable)
    case Denied => None
    case Unreadable => Some(Report(No, Reason.Failed, UNREADABLE, a.names, a.mappings))
    case Permitted =>
      match a.ending
      case GaveUp(_) => None
      case Ended(verdict, reason, message) => Some(Report(verdict, reason, message, a.names, a.mappings))
  }

  /**
   An outcome is handed over exactly if the closing check permits or could not be made. In particular a
   handler that gave up at a denied check never publishes on a closing check that permits, because there
   can be none.
   */
  lemma HandedIffPermittedOrUnread(log: seq<Version>, actions: seq<Action>, a: Attempt)
    requires IsHistory(log, actions) && IsAttempt(log, a)
    ensures Handed(log, a).Some? <==> !a.readable || Permits(log[a.start].value, log[a.closing])
  {
    hide IsHistory, Permits;
    if a.ending.GaveUp? {
      DriftIsPermanent(log, actions, a.start, a.ending.denied, a.closing);
    }
  }

  /** A success is handed over only if up to the closing check nothing at all happened to the object. */
  lemma SuccessMeansUndisturbed(log: seq<Version>, actions: seq<Action>, a: Attempt, d: nat)
    requires IsHistory(log, actions) && IsAttempt(log, a) && a.start <= d <= a.closing
    requires Handed(log, a).Some? && Handed(log, a).value.verdict == Yes
    ensures log[d].Some? && log[d].value.uid == log[a.start].value.uid && log[d].value.spec == log[a.start].value.spec
    ensures !log[d].value.deleting && log[d].value.spec.state == Running
  {
    hide IsHistory;
    PermittedMeansUndisturbed(log, actions, a.start, a.closing, d);
  }

  /** Once the object has drifted by the closing check, an outcome is handed over exactly if that check could not be made, and then a failure. */
  lemma DriftedHandsOverOnlyFailures(log: seq<Version>, actions: seq<Action>, a: Attempt, d: nat)
    requires IsHistory(log, actions) && IsAttempt(log, a)
    requires a.start <= d <= a.closing && !Permits(log[a.start].value, log[d])
    ensures Handed(log, a).Some? <==> !a.readable
    ensures Handed(log, a).Some? ==> Handed(log, a).value.verdict == No
  {
    hide IsHistory, Permits;
    DriftIsPermanent(log, actions, a.start, d, a.closing);
  }

  /** After a drift at most one mutation of an attempt lands, the one that was already past its check, and it is the last. */
  lemma AtMostOneLateMutation(log: seq<Version>, actions: seq<Action>, a: Attempt, d: nat, k: nat)
    requires IsHistory(log, actions) && IsAttempt(log, a)
    requires a.start <= d < |log| && !Permits(log[a.start].value, log[d])
    requires k < |a.mutations| && a.mutations[k].land >= d
    ensures k == |a.mutations| - 1 && a.mutations[k].check < d
  {
    hide IsHistory, Permits;
    var ms := a.mutations;
    if ms[k].check >= d {
      DriftIsPermanent(log, actions, a.start, d, ms[k].check);
    }
    if k < |ms| - 1 {
      DriftIsPermanent(log, actions, a.start, d, ms[k + 1].check);
    }
  }

  lemma AttemptGrows(log: seq<Version>, log': seq<Version>, a: Attempt)
    requires IsAttempt(log, a) && log <= log'
    ensures IsAttempt(log', a) && Handed(log', a) == Handed(log, a)
  {
    hide Permits;
    assert forall k | 0 <= k < |log| :: log'[k] == log[k];
  }

  // ----- What still lands after a drift -----

  /** A failure adds no success, whatever it is merged onto. */
  lemma FailureAddsNoSuccess(o: Object, report: Report, now: int, l: Object, t: ConditionType)
    requires report.verdict == No
    ensures IsTrue(MergedStatus(o, Local(o, Handle(report), now), l).conditions, t) ==> IsTrue(l.status.conditions, t)
  {
    hide Handled, MergedConditions, MergeNames;
    var mine := Local(o, Handle(report), now);
    var cleared := if ClearsRejection(o, mine, l) then l.status.conditions - {Accepted} else l.status.conditions;
    var merged := MergedConditions(o.status.conditions, mine.conditions, cleared, l.generation);
    if IsTrue(merged, t) {
      MergeAddsTrue(o.status.conditions, mine.conditions, cleared, l.generation, t);
      if IsTrue(mine.conditions, t) && Applies(o.status.conditions, mine.conditions, cleared, l.generation, t) {
        var j := HandledSuccess(o, report, now, t);
      }
    }
  }

  /**
   What a failed closing read can still write after a drift: never a success. If the spec was edited the
   generation guard of the merge drops every condition, mapping and completion, and only names and the start
   time are left; otherwise the object is being deleted.
   */
  lemma DriftedPublication(log: seq<Version>, actions: seq<Action>, k: nat, d: nat)
    requires IsHistory(log, actions) && k < |actions| && actions[k].Publish? && actions[k].work.Handle?
    requires actions[k].work.report.verdict == No
    requires actions[k].start <= d <= k && log[actions[k].start].Some? && !Permits(log[actions[k].start].value, log[d])
    ensures log[k].Some? && log[k + 1].Some?
    ensures forall t :: IsTrue(log[k + 1].value.status.conditions, t) <==> IsTrue(log[k].value.status.conditions, t)
    ensures
      || log[k].value.deleting
      || (var x, y := log[k].value.status, log[k + 1].value.status;
          x.conditions == y.conditions && x.mappings == y.mappings && x.completionTime == y.completionTime && x.completionHash == y.completionHash)
  {
    hide Local, MergedStatus, Allowed, Perform, MayPublish;
    PublishView(log, actions, k);
    var a := actions[k];
    var o, l := log[a.start].value, log[k].value;
    forall t ensures IsTrue(log[k + 1].value.status.conditions, t) <==> IsTrue(l.status.conditions, t) {
      FailureAddsNoSuccess(o, a.work.report, a.now, l, t);
      NextGrows(log, actions, k);
    }
    ObjectContiguous(log, actions, a.start, d, k);
    StatusOnlyGrows(log, actions, a.start, d);
    StatusOnlyGrows(log, actions, d, k);
    HandledRuns(log, actions, k);
    if !l.deleting {
      StaleReconcilePublishesNothing(o, a.work, a.now, l);
    }
  }

  lemma NextGrows(log: seq<Version>, actions: seq<Action>, k: nat)
    requires IsHistory(log, actions) && k < |actions| && actions[k].Publish? && log[k].Some? && log[k + 1].Some?
    ensures Grows(log[k].value, log[k + 1].value)
  {
    hide Local, MergedStatus, MayPublish;
    PublishView(log, actions, k);
    StatusOnlyGrows(log, actions, k, k + 1);
  }

  lemma HandledRuns(log: seq<Version>, actions: seq<Action>, k: nat)
    requires IsHistory(log, actions) && k < |actions| && actions[k].Publish? && actions[k].work.Handle?
    ensures log[actions[k].start].Some? && log[actions[k].start].value.spec.state == Running
  {
    hide Local, MergedStatus;
    var before := log[..k + 1];
    assert Allowed(before, actions[k]) && before[actions[k].start] == log[actions[k].start];
  }

  // ----- An outcome published after a drift -----

  const UNREAD_REPORT := Report(No, Reason.Failed, UNREADABLE, [], [])

  function Fresh(spec: Spec): Object {
    Object(1, 1, spec, false, true, false, EMPTY_STATUS)
  }

  function Written(spec: Spec, now: int): Object {
    var deleted := Fresh(spec).(deleting := true);
    deleted.(status := MergedStatus(Fresh(spec), Local(Fresh(spec), Handle(UNREAD_REPORT), now), deleted))
  }

  /** A reconcile starts from version 2, deletion is requested in version 3 without raising the generation, and its closing read fails. */
  function UnreadActions(spec: Spec, now: int): seq<Action> {
    [Create(1, spec, false), Finalize(1), RequestDelete(false), Publish(2, Handle(UNREAD_REPORT), ReadFailed, now)]
  }

  function UnreadLog(spec: Spec, now: int): seq<Version> {
    [None, Some(Fresh(spec).(finalizer := false)), Some(Fresh(spec)), Some(Fresh(spec).(deleting := true)), Some(Written(spec, now))]
  }

  const UNREAD_ATTEMPT := Attempt(2, 2, [], Ended(Yes, Completed, "done"), [], [], 3, false)

  lemma UnreadHistory(spec: Spec, now: int)
    requires spec.state == Running
    ensures IsHistory(UnreadLog(spec, now), UnreadActions(spec, now))
  {
    hide MergedStatus, Local, Opened, FirstIncomplete;
    var log, actions := UnreadLog(spec, now), UnreadActions(spec, now);
    assert log[..1] == [None];
    assert log[..2] == [None, log[1]] && log[..3] == [None, log[1], log[2]] && log[..4] == [None, log[1], log[2], log[3]];
    assert Allowed(log[..1], actions[0]) && log[1] == Perform(log[..1], actions[0]);
    assert Allowed(log[..2], actions[1]) && log[2] == Perform(log[..2], actions[1]);
    assert Allowed(log[..3], actions[2]) && log[3] == Perform(log[..3], actions[2]);
    assert Allowed(log[..4], actions[3]) && log[4] == Perform(log[..4], actions[3]);
  }

  lemma FirstStageFails(spec: Spec, now: int)
    ensures
      var mine := Local(Fresh(spec), Handle(UNREAD_REPORT), now).conditions;
      && InfrastructurePrepared in mine && mine[InfrastructurePrepared].status == No && mine[InfrastructurePrepared].observed == 1
  {
    var o := Fresh(spec);
    var cs := Opened(o, now);
    assert InfrastructurePrepared !in cs;
    assert ORDER[0] == InfrastructurePrepared;
    assert FirstIncomplete(cs, 0) == Some(0);
  }

  /**
   So a drifted reconcile can publish: its handler reported success, deletion had been requested, the closing
   read failed, and the stage is recorded as failed on the object being deleted.
   */
  lemma FailedReadPublishesAfterDrift(spec: Spec, now: int)
    requires spec.state == Running
    ensures
      var log := UnreadLog(spec, now);
      && IsHistory(log, UnreadActions(spec, now)) && IsAttempt(log, UNREAD_ATTEMPT)
      && !Permits(log[2].value, log[3]) && Handed(log, UNREAD_ATTEMPT) == Some(UNREAD_REPORT)
      && InfrastructurePrepared !in log[3].value.status.conditions
      && InfrastructurePrepared in log[4].value.status.conditions
      && log[4].value.status.conditions[InfrastructurePrepared].status == No
  {
    UnreadHistory(spec, now);
    FirstStageFails(spec, now);
    hide Local, MergeNames, IsHistory;
    var log := UnreadLog(spec, now);
    assert IsAttempt(log, UNREAD_ATTEMPT);
    var mine := Local(Fresh(spec), Handle(UNREAD_REPORT), now).conditions;
    assert Applies(map[], mine, map[], 1, InfrastructurePrepared);
  }
}
