/** What holds in every version of every interleaving. */
module StatusSafety {
  import opened FailureDomains
  import opened Sums
  import opened MigrationStatus
  import opened StatusHistory

  // ----- Stage order -----

  lemma MergeKeepsOrder(log: seq<Version>, a: Action)
    requires log != [] && Allowed(log, a) && a.Publish?
    requires PrefixClosed(log[|log| - 1].value.status.conditions)
    requires Grows(log[a.start].value, log[|log| - 1].value)
    ensures PrefixClosed(Perform(log, a).value.status.conditions)
  {
    hide Local, MergedConditions, MergeNames, Grows;
    var o, l := log[a.start].value, log[|log| - 1].value;
    var r := Perform(log, a).value.status.conditions;
    forall i, j | 0 <= i < j < |ORDER| && IsTrue(r, ORDER[j]) ensures IsTrue(r, ORDER[i]) {
      MergedStageOrder(o, a.work, a.now, l, i, j);
    }
  }

  lemma MergedStageOrder(o: Object, w: Work, now: int, l: Object, i: nat, j: nat)
    requires PrefixClosed(l.status.conditions) && Grows(o, l) && i < j < |ORDER|
    requires IsTrue(MergedStatus(o, Local(o, w, now), l).conditions, ORDER[j])
    ensures IsTrue(MergedStatus(o, Local(o, w, now), l).conditions, ORDER[i])
  {
    hide Local, MergedConditions, MergeNames;
    var mine := Local(o, w, now);
    var cleared := if ClearsRejection(o, mine, l) then l.status.conditions - {Accepted} else l.status.conditions;
    assert forall k | 0 <= k < |ORDER| :: ORDER[k] != Accepted;
    MergeAddsTrue(o.status.conditions, mine.conditions, cleared, l.generation, ORDER[j]);
    if !IsTrue(l.status.conditions, ORDER[j]) {
      var k := LocalSuccess(o, w, now, ORDER[j]);
      OrderDistinct(j, k);
      assert IsTrue(o.status.conditions, ORDER[i]);
    }
    assert IsTrue(l.status.conditions, ORDER[i]);
    MergeKeepsTrue(o.status.conditions, mine.conditions, cleared, l.generation, ORDER[i]);
  }

  /**
   Stage order under concurrency: in every version of every interleaving of reconcilers with stale
   snapshots, spec edits, deletions and recreations, a stage is true only if all earlier stages are.
   */
  lemma {:induction false} StagesInOrder(log: seq<Version>, actions: seq<Action>, k: nat)
    requires IsHistory(log, actions) && k < |log| && log[k].Some?
    ensures PrefixClosed(log[k].value.status.conditions)
  {
    hide Local, MergedStatus, MergeNames, PrefixClosed, Grows;
    if k > 0 {
      var before, a := log[..k], actions[k - 1];
      assert log[..k - 1 + 1] == before && Allowed(before, a) && log[k] == Perform(before, a);
      assert before[|before| - 1] == log[k - 1];
      if a.Create? {
        NothingTrue();
      } else {
        StagesInOrder(log, actions, k - 1);
        if a.Publish? {
          assert before[a.start] == log[a.start];
          StatusOnlyGrows(log, actions, a.start, k - 1);
          MergeKeepsOrder(before, a);
        }
      }
    }
  }

  lemma NothingTrue()
    ensures PrefixClosed(EMPTY_STATUS.conditions)
  {
  }

  /** A reconcile's status writes go only to the object it started from, which existed throughout. */
  lemma StatusWritesStayWithTheirObject(log: seq<Version>, actions: seq<Action>, k: nat)
    requires IsHistory(log, actions) && k < |actions|
    requires actions[k].Publish? || actions[k].PersistNames? || actions[k].PersistSource?
    ensures actions[k].start <= k && log[actions[k].start].Some? && log[k].Some? && log[k + 1].Some?
    ensures log[actions[k].start].value.uid == log[k].value.uid == log[k + 1].value.uid
    ensures forall d | actions[k].start <= d <= k :: log[d].Some? && log[d].value.uid == log[k].value.uid
  {
    hide Local, MergedStatus, MergeNames;
    var before := log[..k + 1];
    assert Allowed(before, actions[k]) && before[|before| - 1] == log[k] && before[actions[k].start] == log[actions[k].start];
    forall d | actions[k].start <= d <= k ensures log[d].Some? && log[d].value.uid == log[k].value.uid {
      ObjectContiguous(log, actions, actions[k].start, d, k);
    }
  }

  /**
   The finalizer patch compares no UIDs. Whatever object it lands on, it changes nothing but the finalizer,
   and leaves it as that very version calls for: present unless the version is being deleted and is complete
   for its spec or released by the administrator, and never added to one that is being deleted.
   */
  lemma FinalizeObeysItsVersion(log: seq<Version>, actions: seq<Action>, k: nat)
    requires IsHistory(log, actions) && k < |actions| && actions[k].Finalize?
    ensures log[k].Some? && log[k + 1] == Some(log[k].value.(finalizer := !log[k].value.finalizer))
    ensures log[k + 1].value.finalizer <==> !log[k].value.deleting
    ensures !log[k + 1].value.finalizer ==>
              || log[k].value.allowDeletion
              || (&& Ready in log[k].value.status.conditions && log[k].value.status.conditions[Ready].status == Yes
                  && log[k].value.status.completionTime.Some? && log[k].value.status.completionHash == Some(Digest(log[k].value.spec)))
  {
    hide Local, MergedStatus, MayPublish;
    var before := log[..k + 1];
    assert Allowed(before, actions[k]) && before[|before| - 1] == log[k];
  }

  /**
   The finalizer is due to change exactly on a live version without it, and on one being deleted that still has
   it and is released by the administrator or complete for its spec.
   */
  lemma FinalizeIsDue(log: seq<Version>, start: nat)
    requires log != [] && start < |log|
    ensures Allowed(log, Finalize(start)) <==>
              && log[|log| - 1].Some?
              && var o := log[|log| - 1].value;
              || (!o.deleting && !o.finalizer)
              || (&& o.deleting && o.finalizer
                  && (|| o.allowDeletion
                      || (&& Ready in o.status.conditions && o.status.conditions[Ready].status == Yes
                          && o.status.completionTime.Some? && o.status.completionHash == Some(Digest(o.spec)))))
  {
    hide MayPublish;
  }

  /** A reconcile read object 1, which was deleted and replaced by object 2 before its finalizer patch landed. */
  function ReplacedActions(spec: Spec): seq<Action> {
    [Create(1, spec, false), RequestDelete(true), Create(2, spec, false), Finalize(1)]
  }

  function ReplacedLog(spec: Spec): seq<Version> {
    var first, second := Object(1, 1, spec, false, false, false, EMPTY_STATUS), Object(2, 1, spec, false, false, false, EMPTY_STATUS);
    [None, Some(first), None, Some(second), Some(second.(finalizer := true))]
  }

  /** The patch does land on another object than the one its reconcile started from. */
  lemma FinalizeMayReachAnotherObject(spec: Spec)
    ensures IsHistory(ReplacedLog(spec), ReplacedActions(spec))
    ensures
      var log, a := ReplacedLog(spec), ReplacedActions(spec)[3];
      a.Finalize? && log[a.start].Some? && log[3].Some? && log[a.start].value.uid != log[3].value.uid && log[4] != log[3]
  {
    hide MergedStatus, Local, MayPublish;
    var log, actions := ReplacedLog(spec), ReplacedActions(spec);
    assert log[..1] == [None];
    assert log[..2] == [None, log[1]] && log[..3] == [None, log[1], None] && log[..4] == [None, log[1], None, log[3]];
    assert Allowed(log[..1], actions[0]) && log[1] == Perform(log[..1], actions[0]);
    assert Allowed(log[..2], actions[1]) && log[2] == Perform(log[..2], actions[1]);
    assert Allowed(log[..3], actions[2]) && log[3] == Perform(log[..3], actions[2]);
    assert Allowed(log[..4], actions[3]) && log[4] == Perform(log[..4], actions[3]);
  }

  /** Once the spec has moved on, a reconcile of the old generation publishes no condition, mapping or completion. */
  lemma StaleReconcilePublishesNothing(o: Object, w: Work, now: int, l: Object)
    requires o.generation < l.generation
    ensures
      var r := MergedStatus(o, Local(o, w, now), l);
      r.conditions == l.status.conditions && r.mappings == l.status.mappings
      && r.completionTime == l.status.completionTime && r.completionHash == l.status.completionHash
  {
    hide MergeNames, Local;
    var mine := Local(o, w, now);
    forall t | t in mine.conditions ensures !Applies(o.status.conditions, mine.conditions, l.status.conditions, l.generation, t) {
      LocalObserved(o, w, now, t);
    }
    assert MergedConditions(o.status.conditions, mine.conditions, l.status.conditions, l.generation) == l.status.conditions;
  }

  lemma LocalObserved(o: Object, w: Work, now: int, t: ConditionType)
    requires t in Local(o, w, now).conditions
    ensures Local(o, w, now).conditions[t].observed == o.generation
         || (t in o.status.conditions && Local(o, w, now).conditions[t] == o.status.conditions[t])
  {
    hide Handled, Resumed;
    if w.Handle? {
      HandledObserved(o, w.report, now, t);
    } else if w.Resume? || w.Begin? {
      ResumedObserved(o, now, t);
    }
  }

  lemma ResumedObserved(o: Object, now: int, t: ConditionType)
    ensures t in Resumed(o, now) ==>
      Resumed(o, now)[t].observed == o.generation || (t in o.status.conditions && Resumed(o, now)[t] == o.status.conditions[t])
  {
  }

  lemma HandledObserved(o: Object, report: Report, now: int, t: ConditionType)
    requires t in Handled(o, report, now).conditions
    ensures Handled(o, report, now).conditions[t].observed == o.generation
         || (t in o.status.conditions && Handled(o, report, now).conditions[t] == o.status.conditions[t])
  {
    hide FirstIncomplete, Opened;
    OpenedObserved(o, now, t);
  }

  lemma OpenedObserved(o: Object, now: int, t: ConditionType)
    ensures t in Opened(o, now) ==>
      Opened(o, now)[t].observed == o.generation || (t in o.status.conditions && Opened(o, now)[t] == o.status.conditions[t])
  {
  }

  // ----- Completion binding -----

  /** The j-th action published a finished ensureReady of object uid at that generation and spec. */
  ghost predicate CompletedPublish(log: seq<Version>, actions: seq<Action>, j: nat, uid: nat, generation: nat, spec: Spec) {
    && j < |actions| && j < |log| && actions[j].Publish?
    && actions[j].start <= j && log[actions[j].start].Some?
    && var o := log[actions[j].start].value;
    && o.uid == uid && o.generation == generation && o.spec == spec
    && Completes(o, actions[j].work, actions[j].now)
  }

  /** A true Ready condition was published by ensureReady at the generation it names. */
  ghost predicate ReadyBound(log: seq<Version>, actions: seq<Action>, k: nat)
    requires k < |log|
  {
    log[k].Some? && IsTrue(log[k].value.status.conditions, Ready) ==>
      exists j: nat, spec: Spec :: j < k && CompletedPublish(log, actions, j, log[k].value.uid, log[k].value.status.conditions[Ready].observed, spec)
  }

  /** A recorded completion digest is that of a spec ensureReady completed. */
  ghost predicate HashBound(log: seq<Version>, actions: seq<Action>, k: nat)
    requires k < |log|
  {
    log[k].Some? && log[k].value.status.completionHash.Some? ==>
      exists j: nat, generation: nat :: j < k && CompletedPublish(log, actions, j, log[k].value.uid, generation, log[k].value.status.completionHash.value.spec)
  }

  /** Two versions of one object at the same generation have the same spec. */
  lemma SameGenerationSameSpec(log: seq<Version>, actions: seq<Action>, i: nat, j: nat)
    requires IsHistory(log, actions) && i < |log| && j < |log| && log[i].Some? && log[j].Some?
    requires log[i].value.uid == log[j].value.uid && log[i].value.generation == log[j].value.generation
    ensures log[i].value.spec == log[j].value.spec
  {
    hide Allowed, Perform;
    if i <= j {
      StatusOnlyGrows(log, actions, i, j);
    } else {
      StatusOnlyGrows(log, actions, j, i);
    }
  }

  lemma PublishView(log: seq<Version>, actions: seq<Action>, k: nat)
    requires IsHistory(log, actions) && k < |actions| && actions[k].Publish?
    ensures actions[k].start <= k && log[actions[k].start].Some? && log[k].Some?
    ensures log[actions[k].start].value.uid == log[k].value.uid
    ensures
      var o := log[actions[k].start].value;
      log[k + 1] == Some(log[k].value.(status := MergedStatus(o, Local(o, actions[k].work, actions[k].now), log[k].value)))
  {
    hide Local, MergedStatus, MayPublish;
    var before := log[..k + 1];
    assert Allowed(before, actions[k]) && before[|before| - 1] == log[k] && before[actions[k].start] == log[actions[k].start];
  }

  lemma OtherActionKeepsRecord(log: seq<Version>, actions: seq<Action>, k: nat)
    requires IsHistory(log, actions) && k < |actions| && !actions[k].Publish? && log[k + 1].Some?
    ensures actions[k].Create? ==> log[k + 1].value.status == EMPTY_STATUS
    ensures !actions[k].Create? ==>
      && log[k].Some? && log[k].value.uid == log[k + 1].value.uid
      && log[k].value.status.conditions == log[k + 1].value.status.conditions
      && log[k].value.status.completionHash == log[k + 1].value.status.completionHash
  {
    hide Local, MergedStatus, MayPublish, Retained;
    var before := log[..k + 1];
    assert Allowed(before, actions[k]) && before[|before| - 1] == log[k];
  }

  /** The condition a Publish leaves as Ready is the stored one, or this reconcile's finished ensureReady. */
  lemma PublishedReady(o: Object, w: Work, now: int, l: Object)
    ensures
      var r := MergedStatus(o, Local(o, w, now), l).conditions;
      IsTrue(r, Ready) ==>
        || (IsTrue(l.status.conditions, Ready) && r[Ready] == l.status.conditions[Ready])
        || (Completes(o, w, now) && r[Ready].observed == o.generation)
  {
    hide Local, MergedConditions, Completes, MergeNames;
    var mine := Local(o, w, now);
    var cleared := if ClearsRejection(o, mine, l) then l.status.conditions - {Accepted} else l.status.conditions;
    var r := MergedConditions(o.status.conditions, mine.conditions, cleared, l.generation);
    if IsTrue(r, Ready) {
      MergeAddsTrue(o.status.conditions, mine.conditions, cleared, l.generation, Ready);
      if Applies(o.status.conditions, mine.conditions, cleared, l.generation, Ready) && IsTrue(mine.conditions, Ready) {
        var j := LocalSuccess(o, w, now, Ready);
      }
    }
  }

  /** Completion is recorded by a finished ensureReady, or for a success the reconcile found stored. */
  lemma RecordedCompletion(o: Object, w: Work, now: int, l: Object)
    requires RecordsCompletion(o, Local(o, w, now), l)
    ensures Completes(o, w, now) || (IsTrue(o.status.conditions, Ready) && o.status.conditions[Ready].observed == o.generation)
  {
    hide Local, Completes;
    var mine := Local(o, w, now);
    if !(Ready in o.status.conditions && o.status.conditions[Ready] == mine.conditions[Ready]) {
      var j := LocalSuccess(o, w, now, Ready);
    }
  }

  lemma ReadyBoundStep(log: seq<Version>, actions: seq<Action>, k: nat)
    requires IsHistory(log, actions) && k < |actions| && ReadyBound(log, actions, k)
    ensures ReadyBound(log, actions, k + 1)
  {
    hide Allowed, Perform, Local, MergedStatus, Completes;
    if log[k + 1].Some? && IsTrue(log[k + 1].value.status.conditions, Ready) {
      if actions[k].Publish? {
        PublishView(log, actions, k);
        var o, a := log[actions[k].start].value, actions[k];
        PublishedReady(o, a.work, a.now, log[k].value);
        if Completes(o, a.work, a.now) && log[k + 1].value.status.conditions[Ready].observed == o.generation {
          assert CompletedPublish(log, actions, k, o.uid, o.generation, o.spec);
        }
      } else {
        OtherActionKeepsRecord(log, actions, k);
      }
    }
  }

  lemma {:induction false} ReadyIsBound(log: seq<Version>, actions: seq<Action>, k: nat)
    requires IsHistory(log, actions) && k < |log|
    ensures ReadyBound(log, actions, k)
  {
    hide Allowed, Perform, CompletedPublish;
    if k > 0 {
      ReadyIsBound(log, actions, k - 1);
      ReadyBoundStep(log, actions, k - 1);
    }
  }

  /** A success found stored at the object's own generation was completed for the object's own spec. */
  lemma StoredReadyCompleted(log: seq<Version>, actions: seq<Action>, i: nat)
    requires IsHistory(log, actions) && i < |log| && log[i].Some? && IsTrue(log[i].value.status.conditions, Ready)
    requires log[i].value.status.conditions[Ready].observed == log[i].value.generation
    ensures exists j: nat :: j < i && CompletedPublish(log, actions, j, log[i].value.uid, log[i].value.generation, log[i].value.spec)
  {
    hide Allowed, Perform, Completes;
    ReadyIsBound(log, actions, i);
    var j: nat, spec: Spec :| j < i && CompletedPublish(log, actions, j, log[i].value.uid, log[i].value.generation, spec);
    SameGenerationSameSpec(log, actions, i, actions[j].start);
  }

  lemma HashBoundStep(log: seq<Version>, actions: seq<Action>, k: nat)
    requires IsHistory(log, actions) && k < |actions| && HashBound(log, actions, k)
    ensures HashBound(log, actions, k + 1)
  {
    hide Allowed, Perform, Local, RecordsCompletion, MergedConditions, MergeNames, Completes;
    if log[k + 1].Some? && log[k + 1].value.status.completionHash.Some? {
      if actions[k].Publish? {
        PublishView(log, actions, k);
        var o, a := log[actions[k].start].value, actions[k];
        if RecordsCompletion(o, Local(o, a.work, a.now), log[k].value) {
          RecordedCompletion(o, a.work, a.now, log[k].value);
          if Completes(o, a.work, a.now) {
            assert CompletedPublish(log, actions, k, o.uid, o.generation, o.spec);
          } else {
            StoredReadyCompleted(log, actions, a.start);
          }
        }
      } else {
        OtherActionKeepsRecord(log, actions, k);
      }
    }
  }

  lemma {:induction false} HashIsBound(log: seq<Version>, actions: seq<Action>, k: nat)
    requires IsHistory(log, actions) && k < |log|
    ensures HashBound(log, actions, k)
  {
    hide Allowed, Perform, CompletedPublish;
    if k > 0 {
      HashIsBound(log, actions, k - 1);
      HashBoundStep(log, actions, k - 1);
    }
  }

  /**
   Completion binding: whatever races with it, the retention finalizer is only ever removed from a
   version that is being deleted and that either carries the administrator's permission at that very
   moment, or is Ready for a spec equal to one that ensureReady finished earlier on the same object.
   */
  lemma FinalizerReleased(log: seq<Version>, actions: seq<Action>, k: nat)
    requires IsHistory(log, actions) && k < |actions| && log[k].Some? && log[k + 1].Some?
    requires log[k].value.finalizer && !log[k + 1].value.finalizer
    ensures log[k].value.deleting
    ensures
      || log[k].value.allowDeletion
      || (&& IsTrue(log[k].value.status.conditions, Ready)
          && exists j: nat, generation: nat :: j < k && CompletedPublish(log, actions, j, log[k].value.uid, generation, log[k].value.spec))
  {
    hide Local, MergedStatus, MayPublish, CompletedPublish;
    var before := log[..k + 1];
    assert Allowed(before, actions[k]) && before[|before| - 1] == log[k] && log[k + 1] == Perform(before, actions[k]);
    HashIsBound(log, actions, k);
  }
}
