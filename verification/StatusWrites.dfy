/**
 What a status write leaves behind, in terms of what was reported and what was stored: the report does
 reach the object, field by field, unless a success or a newer generation stands in the way.
 */
module StatusWrites {
  import opened FailureDomains
  import opened Sums
  import opened MigrationStatus
  import opened StatusHistory
  import opened StatusSafety

  predicate SameEntry(a: Conditions, b: Conditions, t: ConditionType) {
    (t in a <==> t in b) && (t in a ==> a[t] == b[t])
  }

  /**
   v is l after a reconcile that started from o reported this condition: it is stored, except that a success is
   not taken back, and that a reconcile which only repeats what it started from leaves the stored one alone.
   */
  predicate ConditionStored(o: Object, t: ConditionType, status: Truth, reason: Reason, message: string, l: Object, v: Object) {
    var before, base, after := l.status.conditions, o.status.conditions, v.status.conditions;
    if t in before && before[t].status == Yes && status != Yes then SameEntry(after, before, t)
    else
      || (t in after && after[t].status == status && after[t].reason == reason && after[t].message == message && after[t].observed == o.generation)
      || (&& t in base && base[t].status == status && base[t].reason == reason && base[t].message == message && base[t].observed == o.generation
          && SameEntry(after, before, t))
  }

  /** A mapping rejection this reconcile has recovered from goes away, unless somebody has changed it meanwhile. */
  predicate RejectionDropped(o: Object, l: Object, v: Object) {
    var before, base, after := l.status.conditions, o.status.conditions, v.status.conditions;
    if Accepted in base && base[Accepted].status == No && base[Accepted].reason in {MappingRejected, Reason.Failed}
       && Accepted in before && before[Accepted] == base[Accepted]
    then Accepted !in after
    else SameEntry(after, before, Accepted)
  }

  /** While an earlier stage is worked on, Ready says that the migration runs or waits; an unpaused one is left alone. */
  predicate ReadySeeded(o: Object, l: Object, v: Object) {
    if Ready !in o.status.conditions
    then ConditionStored(o, Ready, No, Progressing, "Waiting for migration workflow to complete", l, v)
    else ResumeStored(o, l, v)
  }

  /** A paused object is said to be running again; any other one is left alone. */
  predicate ResumeStored(o: Object, l: Object, v: Object) {
    if Ready in o.status.conditions && o.status.conditions[Ready].reason == Paused
    then ConditionStored(o, Ready, No, Progressing, "Migration is running", l, v)
    else SameEntry(v.status.conditions, l.status.conditions, Ready)
  }

  /** v is l after a reconcile that started from o has published the report on stage t. */
  ghost predicate ReportStored(o: Object, t: ConditionType, report: Report, l: Object, v: Object) {
    && ConditionStored(o, t, report.verdict, report.reason, report.message, l, v)
    && RejectionDropped(o, l, v)
    && (t != Ready ==> ReadySeeded(o, l, v))
    && (forall other | other !in {t, Ready, Accepted} :: SameEntry(v.status.conditions, l.status.conditions, other))
    && (forall n | n in report.names || n in l.status.names :: n in v.status.names)
    && (o.status.mappings == [] && l.status.mappings == [] ==> v.status.mappings == report.mappings)
    && v.status.startTime.Some?
    && (t == Ready && report.verdict == Yes ==>
          && Ready in v.status.conditions && v.status.conditions[Ready].status == Yes
          && v.status.completionTime.Some? && v.status.completionHash == Some(Digest(o.spec)))
  }

  /** One condition through the merge: applied with everything it says, or left as it was stored. */
  lemma MergeStores(base: Conditions, mine: Conditions, latest: Conditions, generation: nat, t: ConditionType)
    ensures
      var r := MergedConditions(base, mine, latest, generation);
      if t in mine && (t !in base || base[t] != mine[t]) && mine[t].observed >= generation
         && !(t in latest && latest[t].status == Yes && mine[t].status != Yes)
      then && t in r
           && r[t].status == mine[t].status && r[t].reason == mine[t].reason && r[t].message == mine[t].message && r[t].observed == mine[t].observed
           && r[t].transition == (if t in latest && latest[t].status == mine[t].status then latest[t] else mine[t]).transition
      else SameEntry(r, latest, t)
  {
  }

  lemma OpenedStage(o: Object, now: int, t: ConditionType)
    requires t != Accepted && t != Ready
    ensures SameEntry(Opened(o, now), o.status.conditions, t)
  {
  }

  lemma OpenedRejection(o: Object, now: int)
    ensures IsMappingRejection(o.status.conditions) ==> Accepted !in Opened(o, now)
    ensures !IsMappingRejection(o.status.conditions) ==> SameEntry(Opened(o, now), o.status.conditions, Accepted)
  {
  }

  lemma OpenedReady(o: Object, now: int)
    ensures
      var before, after := o.status.conditions, Opened(o, now);
      if Ready !in before then
        Ready in after && after[Ready] == Condition(No, Progressing, "Waiting for migration workflow to complete", o.generation, after[Ready].transition)
      else if before[Ready].reason == Paused then
        Ready in after && after[Ready] == Condition(No, Progressing, "Migration is running", o.generation, after[Ready].transition)
      else SameEntry(after, before, Ready)
  {
  }

  lemma ClearedKeeps(o: Object, mine: Status, l: Object, t: ConditionType)
    requires t != Accepted
    ensures SameEntry(if ClearsRejection(o, mine, l) then l.status.conditions - {Accepted} else l.status.conditions, l.status.conditions, t)
  {
  }

  /** What a handler's reconcile has in memory. */
  lemma HandledView(o: Object, report: Report, now: int, i: nat)
    requires FirstIncomplete(Opened(o, now), 0) == Some(i)
    ensures
      var mine, t := Handled(o, report, now), ORDER[i];
      && t != Accepted && t in mine.conditions
      && mine.conditions[t] == Condition(report.verdict, report.reason, report.message, o.generation, mine.conditions[t].transition)
      && (forall other | other != t :: SameEntry(mine.conditions, Opened(o, now), other))
      && mine.names == MergeNames(o.status.names, report.names)
      && mine.mappings == (if o.status.mappings == [] then report.mappings else o.status.mappings)
      && mine.startTime.Some?
      && (t == Ready && report.verdict == Yes ==> mine.completionTime == Some(now))
  {
    hide Opened, FirstIncomplete, MergeNames;
    assert forall k | 0 <= k < |ORDER| :: ORDER[k] != Accepted;
  }

  lemma CompletionRecorded(o: Object, report: Report, now: int, i: nat, l: Object)
    requires FirstIncomplete(Opened(o, now), 0) == Some(i) && ORDER[i] == Ready && report.verdict == Yes
    requires o.generation == l.generation && o.spec == l.spec
    ensures
      var v := MergedStatus(o, Handled(o, report, now), l);
      v.completionTime.Some? && v.completionHash == Some(Digest(o.spec))
  {
    hide Opened, FirstIncomplete, MergeNames, MergedConditions, Handled;
    HandledView(o, report, now, i);
  }

  lemma StageStored(o: Object, report: Report, now: int, i: nat, l: Object, cleared: Conditions)
    requires FirstIncomplete(Opened(o, now), 0) == Some(i) && o.generation == l.generation
    requires SameEntry(cleared, l.status.conditions, ORDER[i])
    ensures
      var r := MergedConditions(o.status.conditions, Handled(o, report, now).conditions, cleared, l.generation);
      ConditionStored(o, ORDER[i], report.verdict, report.reason, report.message, l, l.(status := l.status.(conditions := r)))
  {
    hide Opened, FirstIncomplete, MergeNames, MergedConditions, Handled;
    HandledView(o, report, now, i);
    MergeStores(o.status.conditions, Handled(o, report, now).conditions, cleared, l.generation, ORDER[i]);
  }

  lemma RejectionHandled(o: Object, report: Report, now: int, i: nat, l: Object)
    requires FirstIncomplete(Opened(o, now), 0) == Some(i) && o.generation == l.generation
    ensures RejectionDropped(o, l, l.(status := MergedStatus(o, Handled(o, report, now), l)))
  {
    hide Opened, FirstIncomplete, MergeNames, MergedConditions, Handled;
    HandledView(o, report, now, i);
    OpenedRejection(o, now);
    var mine := Handled(o, report, now);
    assert SameEntry(mine.conditions, Opened(o, now), Accepted);
    var cleared := if ClearsRejection(o, mine, l) then l.status.conditions - {Accepted} else l.status.conditions;
    MergeStores(o.status.conditions, mine.conditions, cleared, l.generation, Accepted);
  }

  /**
   A published report is stored: merged onto an object of the same generation and spec that has grown from the
   one it started from, it leaves the verdict, the names, the mappings, and for a finished ensureReady the completion.
   */
  lemma HandledIsStored(o: Object, report: Report, now: int, i: nat, l: Object)
    requires FirstIncomplete(Opened(o, now), 0) == Some(i)
    requires o.generation == l.generation && o.spec == l.spec && Grows(o, l)
    ensures ReportStored(o, ORDER[i], report, l, l.(status := MergedStatus(o, Local(o, Handle(report), now), l)))
  {
    hide Opened, FirstIncomplete, MergedConditions, Handled, MergeNames, ConditionStored, RejectionDropped, ReadySeeded, SameEntry, ClearsRejection, RecordsCompletion, Grows;
    var mine, t := Handled(o, report, now), ORDER[i];
    var cleared := if ClearsRejection(o, mine, l) then l.status.conditions - {Accepted} else l.status.conditions;
    var v := MergedStatus(o, mine, l);
    HandledView(o, report, now, i);
    ClearedKeeps(o, mine, l, t);
    StageStored(o, report, now, i, l, cleared);
    StageOnly(o, t, report, l, l.(status := l.status.(conditions := v.conditions)), l.(status := v));
    OthersStored(o, report, now, i, l);
    if t != Ready {
      ReadyHandled(o, report, now, i, l);
    }
    RejectionHandled(o, report, now, i, l);
    NamesStored(l.status.names, o.status.names, report.names);
    if t == Ready && report.verdict == Yes {
      CompletionRecorded(o, report, now, i, l);
      ReadyStored(o, report, l, l.(status := v));
    }
  }

  lemma OthersStored(o: Object, report: Report, now: int, i: nat, l: Object)
    requires FirstIncomplete(Opened(o, now), 0) == Some(i) && o.generation == l.generation
    ensures
      var v := MergedStatus(o, Handled(o, report, now), l);
      forall other | other !in {ORDER[i], Ready, Accepted} :: SameEntry(v.conditions, l.status.conditions, other)
  {
    hide Opened, FirstIncomplete, MergeNames, MergedConditions, Handled;
    HandledView(o, report, now, i);
    var mine := Handled(o, report, now);
    var cleared := if ClearsRejection(o, mine, l) then l.status.conditions - {Accepted} else l.status.conditions;
    forall other | other !in {ORDER[i], Ready, Accepted}
      ensures SameEntry(MergedConditions(o.status.conditions, mine.conditions, cleared, l.generation), l.status.conditions, other)
    {
      OpenedStage(o, now, other);
      assert SameEntry(mine.conditions, Opened(o, now), other);
      MergeStores(o.status.conditions, mine.conditions, cleared, l.generation, other);
    }
  }

  lemma ReadyHandled(o: Object, report: Report, now: int, i: nat, l: Object)
    requires FirstIncomplete(Opened(o, now), 0) == Some(i) && ORDER[i] != Ready && o.generation == l.generation
    ensures ReadySeeded(o, l, l.(status := MergedStatus(o, Handled(o, report, now), l)))
  {
    hide FirstIncomplete, MergeNames, MergedConditions, Handled, Opened, ClearsRejection, RecordsCompletion;
    HandledView(o, report, now, i);
    OpenedReady(o, now);
    var mine := Handled(o, report, now);
    assert SameEntry(mine.conditions, Opened(o, now), Ready);
    var cleared := if ClearsRejection(o, mine, l) then l.status.conditions - {Accepted} else l.status.conditions;
    ClearedKeeps(o, mine, l, Ready);
    MergeStores(o.status.conditions, mine.conditions, cleared, l.generation, Ready);
  }

  lemma StageOnly(o: Object, t: ConditionType, report: Report, l: Object, v: Object, v': Object)
    requires ConditionStored(o, t, report.verdict, report.reason, report.message, l, v) && v.status.conditions == v'.status.conditions
    ensures ConditionStored(o, t, report.verdict, report.reason, report.message, l, v')
  {
  }

  lemma ReadyStored(o: Object, report: Report, l: Object, v: Object)
    requires report.verdict == Yes && ConditionStored(o, Ready, report.verdict, report.reason, report.message, l, v) && Grows(o, l)
    ensures Ready in v.status.conditions && v.status.conditions[Ready].status == Yes
  {
    assert IsTrue(o.status.conditions, Ready) ==> IsTrue(l.status.conditions, Ready);
  }

  lemma NamesStored(stored: seq<string>, started: seq<string>, reported: seq<string>)
    ensures forall n | n in reported || n in stored :: n in MergeNames(stored, MergeNames(started, reported))
  {
    var mine := MergeNames(started, reported);
    var r := MergeNames(stored, mine);
    forall n | n in reported || n in stored ensures n in r {
      assert n in Elements(reported) || n in Elements(stored);
      assert n in Elements(r);
    }
  }

  // ----- Answers that touch no stage -----

  /** v is l after a reconcile of o that did not work on a stage. */
  predicate AnswerStored(o: Object, w: Work, l: Object, v: Object) {
    && v.status.names == l.status.names && v.status.mappings == l.status.mappings
    && (forall t | t != (if w.Refuse? then Accepted else Ready) :: SameEntry(v.status.conditions, l.status.conditions, t))
    && match w
       case Refuse(reason, message) => ConditionStored(o, Accepted, No, reason, message, l, v)
       case Pause(message) => ConditionStored(o, Ready, No, Paused, message, l, v)
       case Resume => ResumeStored(o, l, v)
       case Begin => ResumeStored(o, l, v) && v.status.startTime.Some?
       case Handle(_) => true
  }

  lemma SetIsStored(o: Object, t: ConditionType, c: Condition, l: Object)
    requires c.observed == o.generation == l.generation
    ensures
      var r := MergedConditions(o.status.conditions, SetCondition(o.status.conditions, t, c), l.status.conditions, l.generation);
      ConditionStored(o, t, c.status, c.reason, c.message, l, l.(status := l.status.(conditions := r)))
  {
    hide MergedConditions;
    MergeStores(o.status.conditions, SetCondition(o.status.conditions, t, c), l.status.conditions, l.generation, t);
  }

  lemma StoredAlike(o: Object, t: ConditionType, status: Truth, reason: Reason, message: string, l: Object, v: Object, v': Object)
    requires ConditionStored(o, t, status, reason, message, l, v) && v.status.conditions == v'.status.conditions
    ensures ConditionStored(o, t, status, reason, message, l, v')
  {
  }

  lemma NothingNew(stored: seq<string>, started: seq<string>)
    requires started <= stored
    ensures MergeNames(stored, started) == stored
  {
    assert forall n | n in started :: n in stored;
    AllKnown(stored, started);
  }

  lemma {:induction false} AllKnown(stored: seq<string>, names: seq<string>)
    requires forall n | n in names :: n in stored
    ensures MergeNames(stored, names) == stored
  {
    if names != [] {
      AllKnown(stored, names[..|names| - 1]);
    }
  }

  lemma ResumedStored(o: Object, now: int, l: Object)
    requires o.generation == l.generation
    ensures
      var r := MergedConditions(o.status.conditions, Resumed(o, now), l.status.conditions, l.generation);
      ResumeStored(o, l, l.(status := l.status.(conditions := r)))
  {
    hide MergedConditions;
    if Ready in o.status.conditions && o.status.conditions[Ready].reason == Paused {
      SetIsStored(o, Ready, Condition(No, Progressing, "Migration is running", o.generation, now), l);
    } else {
      MergeStores(o.status.conditions, Resumed(o, now), l.status.conditions, l.generation, Ready);
    }
  }

  /** An answer reaches the object of the same generation, and changes neither names nor mappings. */
  lemma AnswerIsStored(o: Object, w: Work, now: int, l: Object)
    requires !w.Handle? && o.generation == l.generation && Grows(o, l)
    ensures AnswerStored(o, w, l, l.(status := MergedStatus(o, Local(o, w, now), l)))
  {
    hide MergedConditions, MergeNames, ConditionStored, Resumed, SetCondition;
    var v := MergedStatus(o, Local(o, w, now), l);
    NothingNew(l.status.names, o.status.names);
    LocalFrame(o, w, now, l);
    var c := l.(status := l.status.(conditions := v.conditions));
    match w {
      case Refuse(reason, message) =>
        RefuseKeepsAccepted(o, reason, message, now);
        SetIsStored(o, Accepted, Condition(No, reason, message, o.generation, now), l);
        StoredAlike(o, Accepted, No, reason, message, l, c, l.(status := v));
      case Pause(message) =>
        PauseKeepsAccepted(o, w, now);
        SetIsStored(o, Ready, Condition(No, Paused, message, o.generation, now), l);
        StoredAlike(o, Ready, No, Paused, message, l, c, l.(status := v));
      case Resume =>
        PauseKeepsAccepted(o, w, now);
        ResumedStored(o, now, l);
        ResumeAlike(o, l, c, l.(status := v));
      case Begin =>
        PauseKeepsAccepted(o, w, now);
        ResumedStored(o, now, l);
        ResumeAlike(o, l, c, l.(status := v));
    }
  }

  lemma LocalFrame(o: Object, w: Work, now: int, l: Object)
    requires !w.Handle?
    ensures forall t | t != (if w.Refuse? then Accepted else Ready) ::
              SameEntry(MergedStatus(o, Local(o, w, now), l).conditions, l.status.conditions, t)
  {
    hide MergedConditions, MergeNames;
    var mine := Local(o, w, now);
    var cleared := if ClearsRejection(o, mine, l) then l.status.conditions - {Accepted} else l.status.conditions;
    forall t | t != (if w.Refuse? then Accepted else Ready)
      ensures SameEntry(MergedConditions(o.status.conditions, mine.conditions, cleared, l.generation), l.status.conditions, t)
    {
      MergeStores(o.status.conditions, mine.conditions, cleared, l.generation, t);
    }
  }

  lemma ResumeAlike(o: Object, l: Object, v: Object, v': Object)
    requires ResumeStored(o, l, v) && v.status.conditions == v'.status.conditions
    ensures ResumeStored(o, l, v')
  {
  }

  lemma RefuseKeepsAccepted(o: Object, reason: Reason, message: string, now: int)
    ensures Accepted in Local(o, Refuse(reason, message), now).conditions
  {
  }

  lemma PauseKeepsAccepted(o: Object, w: Work, now: int)
    requires w.Pause? || w.Resume? || w.Begin?
    ensures SameEntry(Local(o, w, now).conditions, o.status.conditions, Accepted)
  {
  }

  // ----- In a history -----

  /**
   The last version is the k-th with this work stored in it. Both belong to the object the work started from; if
   the spec has changed since, only what does not depend on it is asked for.
   */
  ghost predicate WorkStored(log: seq<Version>, start: nat, work: Work, now: int, k: int) {
    && start <= k < |log| && log[start].Some? && log[k].Some? && log[|log| - 1].Some?
    && var o, l, v := log[start].value, log[k].value, log[|log| - 1].value;
    && o.uid == l.uid == v.uid
    && (o.generation == l.generation ==>
          if work.Handle?
          then FirstIncomplete(Opened(o, now), 0).Some? ==> ReportStored(o, ORDER[FirstIncomplete(Opened(o, now), 0).value], work.report, l, v)
          else AnswerStored(o, work, l, v))
  }

  /** An accepted publication, or one that finds everything in place, has stored its work. */
  lemma MergedWorkStored(log: seq<Version>, actions: seq<Action>, start: nat, work: Work, now: int, k: nat)
    requires IsHistory(log, actions) && start <= k < |log| && log[start].Some? && log[k].Some? && log[start].value.uid == log[k].value.uid
    requires log[|log| - 1] == Some(log[k].value.(status := MergedStatus(log[start].value, Local(log[start].value, work, now), log[k].value)))
    ensures WorkStored(log, start, work, now, k)
  {
    hide IsHistory, MergedStatus, Local, FirstIncomplete, Opened, ReportStored, AnswerStored, Grows;
    var o, l := log[start].value, log[k].value;
    StatusOnlyGrows(log, actions, start, k);
    if o.generation == l.generation {
      SameGenerationSameSpec(log, actions, start, k);
      if !work.Handle? {
        AnswerIsStored(o, work, now, l);
      } else if FirstIncomplete(Opened(o, now), 0).Some? {
        HandledIsStored(o, work.report, now, FirstIncomplete(Opened(o, now), 0).value, l);
      }
    }
  }
}
