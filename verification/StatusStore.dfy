/**
 The status writes as they run: each re-reads the object, merges, and updates it on condition that
 nothing was written in between, retrying on conflict, while other reconcilers and users act at any
 point. Every write is one action of a history, so what holds in all histories holds for them.
 */
module StatusStore {
  import opened FailureDomains
  import opened Sums
  import opened MigrationStatus
  import opened StatusHistory
  import opened ExecutionGate
  import opened StatusWrites

  datatype Outcome = Written | Unchanged | Superseded | NotFound | Refused | Conflict

  /**
   How one reconcile ended: without touching a stage, at an opening check that could not be made, stopped by the
   gate, or with a stage's outcome handed to the store.
   */
  datatype Reconciled = Idle | Unread | Stopped | Handled(stage: Option<nat>, write: Outcome)

  function Entry(cs: Conditions, t: ConditionType): Option<Condition> {
    if t in cs then Some(cs[t]) else None
  }

  lemma MergedEntry(base: Conditions, mine: Conditions, latest: Conditions, generation: nat, t: ConditionType)
    ensures Entry(MergedConditions(base, mine, latest, generation), t)
         == if Applies(base, mine, latest, generation, t) then Some(SetCondition(latest, t, mine[t])[t]) else Entry(latest, t)
  {
  }

  lemma SameEntries(a: Conditions, b: Conditions)
    requires forall t :: Entry(a, t) == Entry(b, t)
    ensures a == b
  {
    assert forall t :: t in a <==> Entry(a, t).Some?;
    assert forall t :: t in b <==> Entry(b, t).Some?;
    assert forall t | t in a :: Entry(a, t) == Some(a[t]) && Entry(b, t) == Some(b[t]);
  }

  /** Merges one condition, unless this reconcile did not change it, it is stale, or it would undo a success. */
  method MergeCondition(base: Conditions, mine: Conditions, latest: Conditions, generation: nat, r: Conditions, t: ConditionType)
    returns (r': Conditions, changed: bool)
    requires t in mine && Entry(r, t) == Entry(latest, t)
    ensures Entry(r', t) == Entry(MergedConditions(base, mine, latest, generation), t)
    ensures forall other | other != t :: Entry(r', other) == Entry(r, other)
    ensures !changed ==> r' == r
  {
    hide MergedConditions;
    MergedEntry(base, mine, latest, generation, t);
    r', changed := r, false;
    var cond := mine[t];
    if t in base && base[t] == cond {
      return;
    }
    if cond.observed < generation {
      return;
    }
    if t in r && r[t].status == Yes && cond.status != Yes {
      return;
    }
    changed := t !in r || r[t] != cond;
    r' := SetCondition(r, t, cond);
  }

  /** Merges a reconcile's conditions one by one onto the latest ones. */
  method MergeConditions(base: Conditions, mine: Conditions, latest: Conditions, generation: nat)
    returns (r: Conditions, changed: bool)
    ensures r == MergedConditions(base, mine, latest, generation)
    ensures forall t ::
              if t in mine && (t !in base || base[t] != mine[t]) && mine[t].observed >= generation
                 && !(t in latest && latest[t].status == Yes && mine[t].status != Yes)
              then t in r && r[t] == mine[t].(transition := (if t in latest && latest[t].status == mine[t].status then latest[t] else mine[t]).transition)
              else SameEntry(r, latest, t)
    ensures !changed ==> r == latest
  {
    hide MergedConditions, SetCondition, Entry;
    ghost var merged := MergedConditions(base, mine, latest, generation);
    r, changed := latest, false;
    var todo := mine.Keys;
    forall t | t !in todo ensures Entry(latest, t) == Entry(merged, t) {
      MergedEntry(base, mine, latest, generation, t);
    }
    while todo != {}
      invariant todo <= mine.Keys
      invariant forall t :: Entry(r, t) == if t in todo then Entry(latest, t) else Entry(merged, t)
      invariant !changed ==> r == latest
      decreases |todo|
    {
      var t :| t in todo;
      var touched;
      r, touched := MergeCondition(base, mine, latest, generation, r, t);
      todo := todo - {t};
      changed := changed || touched;
    }
    SameEntries(r, merged);
    forall t
      ensures
        if t in mine && (t !in base || base[t] != mine[t]) && mine[t].observed >= generation
           && !(t in latest && latest[t].status == Yes && mine[t].status != Yes)
        then t in r && r[t] == mine[t].(transition := (if t in latest && latest[t].status == mine[t].status then latest[t] else mine[t]).transition)
        else SameEntry(r, latest, t)
    {
      MergeStores(base, mine, latest, generation, t);
    }
  }

  /** What a reconcile publishes: the report its attempt handed over, with the closing check it rests on. */
  ghost function Publication(log: seq<Version>, start: nat, attempt: Option<Attempt>, report: Report, now: int): Action {
    if attempt.Some? && IsAttempt(log, attempt.value) && Handed(log, attempt.value).Some?
    then Publish(start, Handle(Handed(log, attempt.value).value), if attempt.value.readable then ReadAt(attempt.value.closing) else ReadFailed, now)
    else Publish(start, Handle(report), ReadAt(start), now)
  }

  /** The report a reconcile publishes: what its attempt handed over, or the handler's own when every stage is done. */
  ghost function HandedOver(log: seq<Version>, attempt: Option<Attempt>, report: Report): Report {
    if attempt.Some? && IsAttempt(log, attempt.value) && Handed(log, attempt.value).Some? then Handed(log, attempt.value).value else report
  }

  const BLOCKED := "deletion is blocked until the migration completes or an administrator allows it"
  const PAUSED := "Migration is paused; set spec.state to Running to resume"

  /** The object is not to be worked on, and something is to be said about that. */
  predicate NeedsAnswer(o: Object) {
    o.deleting || !o.finalizer || o.spec.state == Suspended
  }

  /** What is said: the finalizer settled, or the reason why nothing happens. */
  function Answered(o: Object, start: nat, now: int): Action {
    if !o.deleting && !o.finalizer then Finalize(start)
    else if o.deleting && (CompleteForSpec(o) || o.allowDeletion) then Finalize(start)
    else if o.deleting then Publish(start, Refuse(DeletionBlocked, BLOCKED), ReadAt(start), now)
    else Publish(start, Pause(PAUSED), ReadAt(start), now)
  }

  class Store {
    var log: seq<Version>
    ghost var actions: seq<Action>
    /** Permission checks that could not be made. */
    ghost var unread: nat

    ghost predicate Valid()
      reads this
    {
      IsHistory(log, actions)
    }

    constructor ()
      ensures Valid() && log == [None] && actions == []
    {
      log, actions, unread := [None], [], 0;
    }

    method Append(a: Action)
      requires Valid() && Allowed(log, a)
      modifies this`log, this`actions
      ensures Valid() && old(log) <= log && actions == old(actions) + [a]
      ensures log == old(log) + [Perform(old(log), a)]
    {
      HistoryExtends(log, actions, a);
      log := log + [Perform(log, a)];
      actions := actions + [a];
    }

    /** Anything the other actors may do meanwhile. */
    method Interfere() returns (ghost others: seq<Action>)
      requires Valid()
      modifies this`log, this`actions
      ensures Valid() && old(log) <= log && actions == old(actions) + others
    {
      hide Allowed, Perform;
      others := [];
      var rounds: int := *;
      for i := 0 to if rounds < 0 then 0 else rounds
        invariant Valid() && old(log) <= log && actions == old(actions) + others
      {
        var a: Action := *;
        if Allowed(log, a) {
          Append(a);
          others := others + [a];
        }
      }
    }

    /** A live read returns the last version, a cached one any version. */
    method Read(live: bool) returns (k: nat)
      requires Valid()
      ensures k < |log| && (live ==> k == |log| - 1)
    {
      k := *;
      if live || k >= |log| {
        k := |log| - 1;
      }
    }

    /** The conditional update: accepted only on top of the version that was read. */
    method TryWrite(k: nat, a: Action) returns (ok: bool)
      requires Valid() && k < |log| && (k == |log| - 1 ==> Allowed(log, a))
      modifies this`log, this`actions
      ensures Valid() && old(log) <= log
      ensures ok <==> k == |old(log)| - 1
      ensures actions == if ok then old(actions) + [a] else old(actions)
      ensures ok ==> Allowed(old(log), a) && log == old(log) + [Perform(old(log), a)]
    {
      hide Allowed, Perform;
      ok := k == |log| - 1;
      if ok {
        Append(a);
      }
    }

    /** Publishes one reconcile's own changes: at most one write, to the object it started from. */
    method UpdateStatus(start: nat, work: Work, closing: Closing, now: int, attempts: nat) returns (r: Outcome, ghost others: seq<Action>)
      requires Valid() && start < |log| && log[start].Some?
      requires MayPublish(log, log[start].value, start, work, closing, now)
      modifies this`log, this`actions
      ensures Valid() && old(log) <= log
      ensures actions == old(actions) + others + (if r.Written? then [Publish(start, work, closing, now)] else [])
      ensures r.Superseded? ==> !SameObject(log, start)
      ensures r.NotFound? ==> log[|log| - 1].None?
      ensures r.Conflict? ==> |others| >= attempts
      ensures !r.Refused?
      ensures r.Unchanged? ==>
                && SameObject(log, start)
                && MergedStatus(log[start].value, Local(log[start].value, work, now), log[|log| - 1].value) == log[|log| - 1].value.status
      ensures r.Written? || r.Unchanged? ==> WorkStored(log, start, work, now, if r.Written? then |log| - 2 else |log| - 1)
    {
      hide Allowed, Perform, Local, MergedStatus, MayPublish, IsHistory, WorkStored;
      var o := log[start].value;
      var mine := Local(o, work, now);
      others := [];
      for attempt := 0 to attempts
        invariant Valid() && old(log) <= log && actions == old(actions) + others && attempt <= |others|
      {
        ghost var some := Interfere();
        others := others + some;
        var k := Read(true);
        if log[k].None? {
          return NotFound, others;
        }
        var latest := log[k].value;
        if latest.uid != o.uid {
          return Superseded, others;
        }
        var changed := Merge(o, mine, latest);
        if !changed {
          MergedWorkStored(log, actions, start, work, now, k);
          return Unchanged, others;
        }
        HistoryLength(log, actions);
        ghost var more := Interfere();
        others := others + more;
        PublishStillAllowed(old(log), log, start, work, closing, now);
        HistoryLength(log, actions);
        ghost var before := log;
        var ok := TryWrite(k, Publish(start, work, closing, now));
        if ok {
          PublishedStatus(before, start, work, closing, now);
          MergedWorkStored(log, actions, start, work, now, k);
          return Written, others;
        }
      }
      return Conflict, others;
    }

    /** Whether publishing would change anything, field by field. */
    static method Merge(o: Object, mine: Status, latest: Object) returns (changed: bool)
      ensures !changed ==> MergedStatus(o, mine, latest) == latest.status
    {
      hide MergedConditions, MergeNames;
      var l := latest.status;
      var cleared := l.conditions;
      changed := false;
      if ClearsRejection(o, mine, latest) {
        cleared := l.conditions - {Accepted};
        changed := true;
      }
      var conditions, conditionsChanged := MergeConditions(o.status.conditions, mine.conditions, cleared, latest.generation);
      var namesChanged := false;
      var names := l.names;
      MergeNamesNone(l.names);
      for i := 0 to |mine.names|
        invariant names == MergeNames(l.names, mine.names[..i])
        invariant !namesChanged ==> names == l.names
      {
        MergeNamesNext(l.names, mine.names, i);
        if mine.names[i] !in names {
          names := names + [mine.names[i]];
          namesChanged := true;
        }
      }
      assert mine.names[..|mine.names|] == mine.names;
      changed :=
        || changed || conditionsChanged || namesChanged
        || (mine.startTime.Some? && l.startTime.None?)
        || RecordsCompletion(o, mine, latest)
        || (mine.mappings != [] && l.mappings == [] && o.generation == latest.generation);
    }

    /** Publishes destination names before destructive cleanup. */
    method PersistWorkerNames(start: nat, names: seq<string>, attempts: nat) returns (r: Outcome, ghost others: seq<Action>, ghost stale: nat)
      requires Valid() && start < |log| && log[start].Some?
      modifies this`log, this`actions
      ensures Valid() && old(log) <= log
      ensures actions == old(actions) + others + (if r.Written? then [PersistNames(start, names)] else [])
      ensures r.Conflict? ==> |others| + stale >= attempts
      ensures stale == 0 && r.NotFound? ==> log[|log| - 1].None?
      ensures stale == 0 && r.Superseded? ==> log[|log| - 1].Some? && log[|log| - 1].value.uid != log[start].value.uid
      ensures r.Written? ==>
                && |log| > 1 && log[|log| - 2].Some? && log[|log| - 1].Some? && log[|log| - 2].value.uid == log[start].value.uid
                && var before, after := log[|log| - 2].value, log[|log| - 1].value;
                && after == before.(status := before.status.(names := after.status.names))
                && before.status.names <= after.status.names && Elements(after.status.names) == Elements(before.status.names) + Elements(names)
      ensures !r.Refused?
      ensures r.Unchanged? && names != [] ==>
                exists k | 0 <= k < |log| :: log[k].Some? && log[k].value.uid == log[start].value.uid && Elements(names) <= Elements(log[k].value.status.names)
    {
      hide Allowed, Perform, MayPublish, Elements, IsHistory;
      others, stale := [], 0;
      if names == [] {
        return Unchanged, others, stale;
      }
      for attempt := 0 to attempts
        invariant Valid() && old(log) <= log && actions == old(actions) + others && attempt <= |others| + stale
      {
        ghost var some := Interfere();
        others := others + some;
        var k := Read(false);
        if k < |log| - 1 {
          stale := stale + 1;
        }
        if log[k].None? {
          return NotFound, others, stale;
        }
        var latest := log[k].value;
        if latest.uid != log[start].value.uid {
          return Superseded, others, stale;
        }
        if Elements(names) <= Elements(latest.status.names) {
          return Unchanged, others, stale;
        }
        HistoryLength(log, actions);
        ghost var more := Interfere();
        others := others + more;
        if SameObject(log, start) {
          PersistAllowed(log, start, names, "");
        }
        HistoryLength(log, actions);
        ghost var before := log;
        var ok := TryWrite(k, PersistNames(start, names));
        if ok {
          PersistedVersion(before, start, names);
          return Written, others, stale;
        }
      }
      return Conflict, others, stale;
    }

    /** Records the source vCenter on the object the reconcile started from, if version k is still the last one. */
    method WriteSource(k: nat, start: nat, server: string) returns (ok: bool, ghost others: seq<Action>)
      requires Valid() && start < |log| && log[start].Some? && server != ""
      requires k < |log| && log[k].Some? && log[k].value.uid == log[start].value.uid && log[k].value.status.source == ""
      modifies this`log, this`actions
      ensures Valid() && old(log) <= log
      ensures actions == old(actions) + others + (if ok then [PersistSource(start, server)] else [])
      ensures ok ==>
                && |log| > 1 && log[|log| - 2].Some? && log[|log| - 2].value.status.source == ""
                && log[|log| - 1] == Some(log[|log| - 2].value.(status := log[|log| - 2].value.status.(source := server)))
                && SourceRecorded(log, log[start].value.uid, server)
      ensures !ok ==> k < |old(log)| - 1 || others != []
    {
      hide Allowed, Perform, MayPublish, IsHistory, SourceRecorded;
      HistoryLength(log, actions);
      others := Interfere();
      HistoryLength(log, actions);
      if SameObject(log, start) {
        PersistAllowed(log, start, [], server);
      }
      ok := TryWrite(k, PersistSource(start, server));
      if ok {
        SourceRecordedAt(log, |log| - 1);
      }
    }

    /** Records the source vCenter once; a different recorded one refuses the rebinding. */
    method PersistSourceVCenter(start: nat, server: string, attempts: nat) returns (r: Outcome, ghost others: seq<Action>, ghost stale: nat)
      requires Valid() && start < |log| && log[start].Some? && server != ""
      modifies this`log, this`actions
      ensures Valid() && old(log) <= log
      ensures actions == old(actions) + others + (if r.Written? then [PersistSource(start, server)] else [])
      ensures r.Written? || r.Unchanged? ==> SourceRecorded(log, log[start].value.uid, server)
      ensures r.Conflict? ==> |others| + stale >= attempts
      ensures stale == 0 && r.NotFound? ==> log[|log| - 1].None?
      ensures stale == 0 && r.Superseded? ==> log[|log| - 1].Some? && log[|log| - 1].value.uid != log[start].value.uid
      ensures r.Written? ==>
                && |log| > 1 && log[|log| - 2].Some? && log[|log| - 2].value.status.source == ""
                && log[|log| - 1] == Some(log[|log| - 2].value.(status := log[|log| - 2].value.status.(source := server)))
      ensures r.Refused? ==> exists other :: other != server && other != "" && SourceRecorded(log, log[start].value.uid, other)
    {
      hide Allowed, Perform, MayPublish, IsHistory, SourceRecorded;
      others, stale := [], 0;
      for attempt := 0 to attempts
        invariant Valid() && old(log) <= log && actions == old(actions) + others && attempt <= |others| + stale
      {
        ghost var some := Interfere();
        others := others + some;
        var k := Read(false);
        if k < |log| - 1 {
          stale := stale + 1;
        }
        if log[k].None? {
          return NotFound, others, stale;
        }
        var latest := log[k].value;
        if latest.uid != log[start].value.uid {
          return Superseded, others, stale;
        }
        if latest.status.source != "" {
          SourceRecordedAt(log, k);
          return if latest.status.source == server then Unchanged else Refused, others, stale;
        }
        var ok;
        ok, some := WriteSource(k, start, server);
        others := others + some;
        if ok {
          return Written, others, stale;
        }
      }
      return Conflict, others, stale;
    }

    /** Adds the retention finalizer, or removes it if this very version authorizes that. */
    method UpdateRetentionFinalizer(start: nat, attempts: nat) returns (r: Outcome, ghost others: seq<Action>)
      requires Valid() && start < |log|
      modifies this`log, this`actions
      ensures Valid() && old(log) <= log
      ensures actions == old(actions) + others + (if r.Written? then [Finalize(start)] else [])
      ensures r.Unchanged? ==> log[|log| - 1].Some? && log[|log| - 1].value.finalizer == Retained(log[|log| - 1].value)
      ensures r.Unchanged? ==>
                var o := log[|log| - 1].value;
                && (!o.deleting ==> o.finalizer)
                && (o.deleting && o.finalizer ==>
                      && !o.allowDeletion
                      && !(&& Ready in o.status.conditions && o.status.conditions[Ready].status == Yes
                           && o.status.completionTime.Some? && o.status.completionHash == Some(Digest(o.spec))))
      ensures r.Written? ==>
                && |log| > 1 && log[|log| - 2].Some?
                && var o := log[|log| - 2].value;
                && log[|log| - 1] == Some(o.(finalizer := !o.deleting)) && o.finalizer == o.deleting
                && (o.deleting ==>
                      || o.allowDeletion
                      || (&& Ready in o.status.conditions && o.status.conditions[Ready].status == Yes
                          && o.status.completionTime.Some? && o.status.completionHash == Some(Digest(o.spec))))
      ensures r.NotFound? ==> log[|log| - 1].None?
      ensures r.Conflict? ==> |others| >= attempts
      ensures !r.Superseded? && !r.Refused?
    {
      hide Allowed, Perform, MayPublish, IsHistory, CompleteForSpec;
      others := [];
      for attempt := 0 to attempts
        invariant Valid() && old(log) <= log && actions == old(actions) + others && attempt <= |others|
      {
        ghost var some := Interfere();
        others := others + some;
        var k := Read(true);
        if log[k].None? {
          return NotFound, others;
        }
        var latest := log[k].value;
        var wanted := latest.finalizer;
        if !latest.deleting {
          wanted := true;
        } else if CompleteForSpec(latest) || latest.allowDeletion {
          wanted := false;
        }
        RetainedMeans(latest);
        if wanted == latest.finalizer {
          return Unchanged, others;
        }
        HistoryLength(log, actions);
        ghost var more := Interfere();
        others := others + more;
        if k == |log| - 1 {
          FinalizeAllowed(log, start, wanted);
        }
        HistoryLength(log, actions);
        ghost var before := log;
        var ok := TryWrite(k, Finalize(start));
        if ok {
          FinalizedVersion(before, start);
          return Written, others;
        }
      }
      return Conflict, others;
    }

    /** Deletion, a missing finalizer and a state other than Running are answered without touching a stage. */
    method Answer(k: nat, now: int, attempts: nat) returns (work: bool, write: Outcome, ghost others: seq<Action>)
      requires Valid() && k < |log| && log[k].Some?
      modifies this`log, this`actions
      ensures Valid() && old(log) <= log
      ensures work <==> !log[k].value.deleting && log[k].value.finalizer && log[k].value.spec.state == Running
      ensures actions == old(actions) + others + (if write.Written? then [Answered(log[k].value, k, now)] else [])
      ensures write.Written? || write.Superseded? || write.Conflict? ==> NeedsAnswer(log[k].value)
      ensures write.NotFound? ==> log[|log| - 1].None?
      ensures write.Conflict? ==> |others| >= attempts
      ensures
        var o := log[k].value;
        write.Written? || write.Unchanged? ==>
          var prev := if write.Written? then |log| - 2 else |log| - 1;
          && (!o.deleting && !o.finalizer ==> log[|log| - 1].Some? && (log[|log| - 1].value.finalizer || log[|log| - 1].value.deleting))
          && (o.deleting && !o.allowDeletion && !CompleteForSpec(o) ==> WorkStored(log, k, Refuse(DeletionBlocked, BLOCKED), now, prev))
          && (!o.deleting && o.finalizer && o.spec.state == Suspended ==> WorkStored(log, k, Pause(PAUSED), now, prev))
    {
      hide Allowed, Perform, IsHistory, Local, MergedStatus, Opened, FirstIncomplete, Retained, CompleteForSpec, WorkStored;
      write, others := Unchanged, [];
      var o := log[k].value;
      work := !o.deleting && o.finalizer && o.spec.state == Running;
      if !o.deleting && !o.finalizer {
        write, others := UpdateRetentionFinalizer(k, attempts);
      } else if o.deleting && (CompleteForSpec(o) || o.allowDeletion) {
        write, others := UpdateRetentionFinalizer(k, attempts);
      } else if o.deleting {
        write, others := UpdateStatus(k, Refuse(DeletionBlocked, BLOCKED), ReadAt(k), now, attempts);
      } else if o.spec.state == Suspended {
        write, others := UpdateStatus(k, Pause(PAUSED), ReadAt(k), now, attempts);
      }
    }

    /** One opening write: it fails only on an object that is gone or under steady interference. */
    method Announce(k: nat, work: Work, now: int, attempts: nat) returns (ok: bool)
      requires Valid() && k < |log| && log[k].Some? && log[k].value.spec.state == Running && (work.Resume? || work.Begin?)
      modifies this`log, this`actions
      ensures Valid() && old(log) <= log && old(actions) <= actions
      ensures !ok ==> log[|log| - 1].None? || |actions| - |old(actions)| >= attempts
    {
      hide Allowed, Perform, IsHistory, Local, MergedStatus, Opened, FirstIncomplete, WorkStored;
      var write;
      ghost var others;
      write, others := UpdateStatus(k, work, ReadAt(k), now, attempts);
      ok := !write.NotFound? && !write.Conflict?;
    }

    /** Publishes the resumed state and the start time, and answers a changed mapping. */
    method Open(k: nat, mappingChanged: bool, now: int, attempts: nat) returns (ok: bool)
      requires Valid() && k < |log| && log[k].Some? && log[k].value.spec.state == Running
      modifies this`log, this`actions
      ensures Valid() && old(log) <= log && old(actions) <= actions
      ensures ok ==> !mappingChanged
      ensures !ok ==> mappingChanged || log[|log| - 1].None? || |actions| - |old(actions)| >= attempts
    {
      hide Allowed, Perform, IsHistory, Local, MergedStatus, Opened, FirstIncomplete, WorkStored;
      var o := log[k].value;
      if Ready in o.status.conditions && o.status.conditions[Ready].reason == Paused {
        ok := Announce(k, Resume, now, attempts);
        if !ok {
          return;
        }
      }
      if o.status.startTime.None? {
        ok := Announce(k, Begin, now, attempts);
        if !ok {
          return;
        }
      }
      if mappingChanged {
        var write;
        ghost var others;
        write, others := UpdateStatus(k, Refuse(MappingRejected, "failure domain mappings changed after preflight"), ReadAt(k), now, attempts);
      }
      ok := !mappingChanged;
    }

    /** A permission check: a live read of the object, which may fail. */
    method CheckPermission(o: Object) returns (r: CheckResult, k: nat, ghost others: seq<Action>)
      requires Valid()
      modifies this
      ensures Valid() && old(log) <= log && actions == old(actions) + others
      ensures |old(log)| - 1 <= k == |log| - 1
      ensures r == Checked(o, log[k], !r.Unreadable?)
      ensures r.Unreadable? ==> unread == old(unread) + 1
      ensures !r.Unreadable? ==>
                && unread == old(unread)
                && (r.Permitted? <==>
                      && log[k].Some? && log[k].value.uid == o.uid && log[k].value.generation == o.generation
                      && !log[k].value.deleting && log[k].value.spec.state == Running)
    {
      hide IsHistory;
      others := Interfere();
      k := Read(true);
      var readable: bool := *;
      r := Checked(o, log[k], readable);
      if !readable {
        unread := unread + 1;
      }
    }

    /**
     A stage's handler: it submits some mutations, each behind its own check. A check that denies or cannot be
     made ends it, unless that mutation was best-effort; then it goes on, and may in the end report success.
     */
    method RunHandler(start: nat, report: Report, wanted: nat) returns (ending: Ending, ghost ms: seq<Mutation>, ghost others: seq<Action>)
      requires Valid() && start < |log| && log[start].Some?
      modifies this
      ensures Valid() && old(log) <= log && actions == old(actions) + others && old(unread) <= unread
      ensures GatedMutations(log, start, ms)
      ensures forall k | 0 <= k < |ms| :: |old(log)| - 1 <= ms[k].check
      ensures ending.GaveUp? ==> |old(log)| - 1 <= ending.denied < |log| && !Permits(log[start].value, log[ending.denied])
      ensures ending.Ended? && ending != Ended(report.verdict, report.reason, report.message) ==>
                ending == Ended(No, Reason.Failed, UNREADABLE) && unread > old(unread)
    {
      hide IsHistory, Permits, GatedMutations;
      ms, others := [], [];
      var o := log[start].value;
      NoMutations(log, start);
      for i := 0 to wanted
        invariant Valid() && old(log) <= log && actions == old(actions) + others && old(unread) <= unread
        invariant GatedMutations(log, start, ms)
        invariant forall k | 0 <= k < |ms| :: |old(log)| - 1 <= ms[k].check
      {
        ghost var before := log;
        ghost var some;
        var r, check;
        r, check, some := CheckPermission(o);
        others := others + some;
        GatedGrow(before, log, start, ms);
        var bestEffort: bool := *;
        if r.Denied? && !bestEffort {
          return GaveUp(check), ms, others;
        }
        if r.Unreadable? && !bestEffort {
          return Ended(No, Reason.Failed, UNREADABLE), ms, others;
        }
        if r.Permitted? {
          ghost var checked := log;
          ghost var more := Interfere();
          others := others + more;
          GatedNext(before, checked, log, start, ms, check);
          ms := ms + [Mutation(check, |log| - 1)];
        }
      }
      ending := Ended(report.verdict, report.reason, report.message);
    }

    /** An attempt at a stage: an opening check, the handler, and a closing check that has the last word. */
    method AttemptStage(k: nat, report: Report, wanted: nat)
      returns (opening: CheckResult, handed: Option<Report>, closing: Closing, ghost attempt: Option<Attempt>, ghost others: seq<Action>)
      requires Valid() && k < |log| && log[k].Some?
      modifies this
      ensures Valid() && old(log) <= log && actions == old(actions) + others && old(unread) <= unread
      ensures attempt.Some? <==> opening.Permitted?
      ensures opening.Unreadable? ==> unread > old(unread)
      ensures handed.None? && !opening.Unreadable? ==> !Permits(log[k].value, log[|log| - 1])
      ensures attempt.Some? ==>
                && attempt.value.start == k && IsAttempt(log, attempt.value) && handed == Handed(log, attempt.value)
                && closing == if attempt.value.readable then ReadAt(attempt.value.closing) else ReadFailed
      ensures handed.Some? ==> attempt.Some?
      ensures handed.Some? && unread == old(unread) ==> handed == Some(report)
    {
      hide IsHistory, IsAttempt, GatedMutations, Permits;
      var o := log[k].value;
      attempt, handed, closing := None, None, ReadFailed;
      var at;
      opening, at, others := CheckPermission(o);
      if !opening.Permitted? {
        return;
      }
      ghost var ms, during;
      var ending;
      ending, ms, during := RunHandler(k, report, wanted);
      others := others + during;
      ghost var worked := log;
      var closed, last;
      closed, last, during := CheckPermission(o);
      others := others + during;
      handed := match closed
        case Denied => None
        case Unreadable => Some(Report(No, Reason.Failed, UNREADABLE, report.names, report.mappings))
        case Permitted =>
          match ending
          case GaveUp(_) => None
          case Ended(verdict, reason, message) => Some(Report(verdict, reason, message, report.names, report.mappings));
      closing := if closed.Unreadable? then ReadFailed else ReadAt(last);
      ghost var a := Attempt(k, at, ms, ending, report.names, report.mappings, last, !closed.Unreadable?);
      AttemptMade(worked, log, a);
      HandedIffPermittedOrUnread(log, actions, a);
      attempt := Some(a);
    }

    /** Works on the first incomplete stage, and publishes what the attempt hands over. */
    method WorkOnStage(k: nat, report: Report, wanted: nat, now: int, attempts: nat)
      returns (r: Reconciled, ghost attempt: Option<Attempt>, ghost others: seq<Action>)
      requires Valid() && k < |log| && log[k].Some? && log[k].value.spec.state == Running
      modifies this
      ensures Valid() && old(log) <= log && !r.Idle? && old(unread) <= unread
      ensures r.Handled? ==> r.stage == FirstIncomplete(Opened(log[k].value, now), 0) && (r.stage.Some? ==> attempt.Some?)
      ensures r.Stopped? ==> !Permits(log[k].value, log[|log| - 1])
      ensures r.Unread? ==> unread > old(unread)
      ensures attempt.Some? ==>
                && attempt.value.start == k && IsAttempt(log, attempt.value)
                && (r.Handled? <==> Handed(log, attempt.value).Some?) && (r.Stopped? <==> Handed(log, attempt.value).None?)
      ensures r.Handled? && (r.write.Written? || r.write.Unchanged?) ==>
                WorkStored(log, k, Handle(HandedOver(log, attempt, report)), now, if r.write.Written? then |log| - 2 else |log| - 1)
      ensures r.Handled? && unread == old(unread) ==> HandedOver(log, attempt, report) == report
      ensures r.Handled? && r.write.NotFound? ==> log[|log| - 1].None?
      ensures r.Handled? && r.write.Conflict? ==> |others| >= attempts
      ensures actions == old(actions) + others + (if r.Handled? && r.write.Written? then [Publication(log, k, attempt, report, now)] else [])
    {
      hide Allowed, Perform, IsHistory, Local, MergedStatus, Opened, FirstIncomplete, IsAttempt, Handed, Permits, WorkStored, MayPublish;
      var write;
      attempt := None;
      var stage := NextStage(Opened(log[k].value, now));
      if stage.None? {
        DonePublishes(log, k, report, now);
        write, others := UpdateStatus(k, Handle(report), ReadAt(k), now, attempts);
        return Handled(None, write), attempt, others;
      }
      var opening, handed, closing;
      opening, handed, closing, attempt, others := AttemptStage(k, report, wanted);
      if handed.None? {
        r := if opening.Unreadable? then Unread else Stopped;
        return;
      }
      ghost var before, during := log, [];
      HandedMayPublish(log, attempt.value, handed.value, now);
      write, during := UpdateStatus(k, Handle(handed.value), closing, now, attempts);
      others := others + during;
      AttemptGrows(before, log, attempt.value);
      r := Handled(stage, write);
    }

    /**
     One reconcile: it reads some version of the object, answers deletion, pausing and a changed mapping
     with a condition of their own, and otherwise works on the first incomplete stage behind the gate.
     */
    method Reconcile(mappingChanged: bool, report: Report, wanted: nat, now: int, attempts: nat)
      returns (r: Reconciled, ghost start: nat, ghost attempt: Option<Attempt>)
      requires Valid()
      modifies this
      ensures Valid() && old(log) <= log && start < |log| && old(unread) <= unread
      ensures r.Idle? ==>
                || log[start].None? || log[start].value.deleting || !log[start].value.finalizer || log[start].value.spec.state != Running
                || mappingChanged || log[|log| - 1].None? || |actions| - |old(actions)| >= attempts
      ensures r.Unread? ==> unread > old(unread)
      ensures r.Stopped? ==> log[start].Some? && !Permits(log[start].value, log[|log| - 1])
      ensures r.Handled? ==>
                && log[start].Some? && log[start].value.spec.state == Running && !log[start].value.deleting && !mappingChanged
                && r.stage == FirstIncomplete(Opened(log[start].value, now), 0) && (r.stage.Some? ==> attempt.Some?)
      ensures attempt.Some? ==>
                && attempt.value.start == start && IsAttempt(log, attempt.value)
                && (r.Handled? <==> Handed(log, attempt.value).Some?)
      ensures r.Handled? && (r.write.Written? || r.write.Unchanged?) ==>
                WorkStored(log, start, Handle(HandedOver(log, attempt, report)), now, if r.write.Written? then |log| - 2 else |log| - 1)
      ensures r.Handled? && unread == old(unread) ==> HandedOver(log, attempt, report) == report
      ensures r.Handled? && r.write.NotFound? ==> log[|log| - 1].None?
      ensures r.Handled? && r.write.Conflict? ==> |actions| - |old(actions)| >= attempts
      ensures r.Handled? && r.write.Written? ==> actions != [] && actions[|actions| - 1] == Publication(log, start, attempt, report, now)
    {
      hide IsHistory, Permits, Opened, FirstIncomplete, IsAttempt, Handed, Publication, WorkStored, HandedOver, Answered, CompleteForSpec;
      ghost var others := Interfere();
      attempt := None;
      var k := Read(false);
      if log[k].None? {
        return Idle, k, attempt;
      }
      var work, write;
      work, write, others := Answer(k, now, attempts);
      if !work {
        return Idle, k, attempt;
      }
      var ok := Open(k, mappingChanged, now, attempts);
      if !ok {
        return Idle, k, attempt;
      }
      r, attempt, others := WorkOnStage(k, report, wanted, now, attempts);
      start := k;
    }

    /** Walks the stages in order to the first that is not true. */
    static method NextStage(cs: Conditions) returns (r: Option<nat>)
      ensures r == FirstIncomplete(cs, 0)
    {
      for i := 0 to |ORDER|
        invariant FirstIncomplete(cs, 0) == FirstIncomplete(cs, i)
      {
        if !IsTrue(cs, ORDER[i]) {
          return Some(i);
        }
      }
      return None;
    }
  }

  lemma GatedGrow(log: seq<Version>, log': seq<Version>, start: nat, ms: seq<Mutation>)
    requires GatedMutations(log, start, ms) && log <= log'
    ensures GatedMutations(log', start, ms)
    ensures ms != [] ==> ms[|ms| - 1].land < |log|
  {
    hide Permits;
  }

  lemma NoMutations(log: seq<Version>, start: nat)
    requires start < |log| && log[start].Some?
    ensures GatedMutations(log, start, [])
  {
    hide Permits;
  }

  /** One more mutation, checked on one version and landing on a later one. */
  lemma GatedNext(before: seq<Version>, checked: seq<Version>, log: seq<Version>, start: nat, ms: seq<Mutation>, check: nat)
    requires GatedMutations(before, start, ms) && before <= checked <= log
    requires start < |before| && |before| - 1 <= check < |checked| && Permits(checked[start].value, checked[check])
    ensures GatedMutations(log, start, ms + [Mutation(check, |log| - 1)])
  {
    hide Permits;
    GatedGrow(before, log, start, ms);
  }

  lemma AttemptMade(log: seq<Version>, log': seq<Version>, a: Attempt)
    requires log <= log' && GatedMutations(log, a.start, a.mutations) && |log| - 1 <= a.closing < |log'|
    requires a.start <= a.opening < |log| && Permits(log[a.start].value, log[a.opening])
    requires forall k | 0 <= k < |a.mutations| :: a.opening <= a.mutations[k].check
    requires a.ending.GaveUp? ==> a.opening <= a.ending.denied < |log| && !Permits(log[a.start].value, log[a.ending.denied])
    ensures IsAttempt(log', a)
  {
    hide Permits;
    GatedGrow(log, log', a.start, a.mutations);
  }

  lemma HandedMayPublish(log: seq<Version>, a: Attempt, report: Report, now: int)
    requires IsAttempt(log, a) && log[a.start].value.spec.state == Running && Handed(log, a) == Some(report)
    ensures MayPublish(log, log[a.start].value, a.start, Handle(report), if a.readable then ReadAt(a.closing) else ReadFailed, now)
  {
    hide Permits, FirstIncomplete, Opened;
  }

  lemma DonePublishes(log: seq<Version>, k: nat, report: Report, now: int)
    requires k < |log| && log[k].Some? && log[k].value.spec.state == Running && FirstIncomplete(Opened(log[k].value, now), 0).None?
    ensures MayPublish(log, log[k].value, k, Handle(report), ReadAt(k), now)
  {
    hide FirstIncomplete, Opened;
  }

  lemma HistoryExtends(log: seq<Version>, actions: seq<Action>, a: Action)
    requires IsHistory(log, actions) && Allowed(log, a)
    ensures IsHistory(log + [Perform(log, a)], actions + [a])
  {
    hide Allowed, Perform;
    var log', actions' := log + [Perform(log, a)], actions + [a];
    forall k | 0 <= k < |actions'| ensures Allowed(log'[..k + 1], actions'[k]) && log'[k + 1] == Perform(log'[..k + 1], actions'[k]) {
      if k < |actions| {
        assert log'[..k + 1] == log[..k + 1];
      } else {
        assert log'[..k + 1] == log;
      }
    }
  }

  /** A reconcile's permission to publish does not depend on what was written after its closing check. */
  lemma PublishStillAllowed(log: seq<Version>, log': seq<Version>, start: nat, work: Work, closing: Closing, now: int)
    requires log != [] && log <= log' && start < |log| && log[start].Some?
    requires MayPublish(log, log[start].value, start, work, closing, now)
    ensures SameObject(log', start) ==> Allowed(log', Publish(start, work, closing, now))
  {
    hide FirstIncomplete, Opened;
    assert log'[start] == log[start];
  }

  lemma RetainedMeans(o: Object)
    ensures CompleteForSpec(o) <==>
              && Ready in o.status.conditions && o.status.conditions[Ready].status == Yes
              && o.status.completionTime.Some? && o.status.completionHash == Some(Digest(o.spec))
  {
  }

  lemma FinalizedVersion(log: seq<Version>, start: nat)
    requires log != [] && Allowed(log, Finalize(start))
    ensures log[|log| - 1].Some?
    ensures
      var o := log[|log| - 1].value;
      && Perform(log, Finalize(start)) == Some(o.(finalizer := !o.deleting)) && o.finalizer == o.deleting
      && (o.deleting ==> o.allowDeletion || CompleteForSpec(o))
  {
    hide MayPublish, CompleteForSpec;
  }

  lemma PersistedVersion(log: seq<Version>, start: nat, names: seq<string>)
    requires log != [] && Allowed(log, PersistNames(start, names))
    ensures start < |log| && log[start].Some? && log[|log| - 1].Some? && log[start].value.uid == log[|log| - 1].value.uid
    ensures Perform(log, PersistNames(start, names)).Some?
    ensures
      var before, after := log[|log| - 1].value, Perform(log, PersistNames(start, names)).value;
      && after == before.(status := before.status.(names := after.status.names))
      && before.status.names <= after.status.names && Elements(after.status.names) == Elements(before.status.names) + Elements(names)
  {
    hide MayPublish;
  }

  lemma HistoryLength(log: seq<Version>, actions: seq<Action>)
    requires IsHistory(log, actions)
    ensures |log| == |actions| + 1
  {
    hide Allowed, Perform;
  }

  lemma PublishedStatus(log: seq<Version>, start: nat, work: Work, closing: Closing, now: int)
    requires log != [] && Allowed(log, Publish(start, work, closing, now))
    ensures start < |log| && log[start].Some? && log[|log| - 1].Some? && log[start].value.uid == log[|log| - 1].value.uid
    ensures Perform(log, Publish(start, work, closing, now))
         == Some(log[|log| - 1].value.(status := MergedStatus(log[start].value, Local(log[start].value, work, now), log[|log| - 1].value)))
  {
    hide MayPublish, Local, MergedStatus;
  }

  lemma MergeNamesNone(recorded: seq<string>)
    ensures MergeNames(recorded, []) == recorded
  {
  }

  lemma FinalizeAllowed(log: seq<Version>, start: nat, wanted: bool)
    requires log != [] && start < |log| && log[|log| - 1].Some?
    requires wanted == Retained(log[|log| - 1].value) && wanted != log[|log| - 1].value.finalizer
    ensures Allowed(log, Finalize(start))
  {
    hide MayPublish, CompleteForSpec;
  }

  /** Some version of that object records the server as its source vCenter. */
  ghost predicate SourceRecorded(log: seq<Version>, uid: nat, server: string) {
    exists k | 0 <= k < |log| :: log[k].Some? && log[k].value.uid == uid && log[k].value.status.source == server
  }

  lemma SourceRecordedAt(log: seq<Version>, k: nat)
    requires k < |log| && log[k].Some?
    ensures SourceRecorded(log, log[k].value.uid, log[k].value.status.source)
  {
  }

  lemma PersistAllowed(log: seq<Version>, start: nat, names: seq<string>, server: string)
    requires SameObject(log, start)
    ensures Allowed(log, PersistNames(start, names))
    ensures server != "" && log[|log| - 1].value.status.source == "" ==>
      && Allowed(log, PersistSource(start, server))
      && Perform(log, PersistSource(start, server)) ==
           Some(log[|log| - 1].value.(status := log[|log| - 1].value.status.(source := server)))
  {
    hide MayPublish;
  }

  lemma MergeNamesNext(recorded: seq<string>, names: seq<string>, i: nat)
    requires i < |names|
    ensures
      var r := MergeNames(recorded, names[..i]);
      MergeNames(recorded, names[..i + 1]) == if names[i] in r then r else r + [names[i]]
  {
    assert names[..i + 1][..i] == names[..i];
  }
}
