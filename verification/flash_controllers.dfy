/**
The background observer and the manual rollback as sequential code. Between any two database or
provider calls the environment may take any steps, including those of other observers and manual
rollbacks. Each procedure is one controller of `FlashDeployments`: its calls, interleaved with the
environment's, form a run, so every theorem about runs holds of it.
*/
module FlashControllers {
  import opened Outcomes
  import opened RollbackSpecs
  import opened FlashDeployments

  /** What the provider, the permission check and the store answer to one observer, and who interferes when. */
  datatype ObserverInputs = ObserverInputs(
    status: Option<Status>,
    allowed: bool,
    checks: Checks,
    beforeStatus: seq<Action>,
    beforeRevision: seq<Action>,
    beforeHistory: seq<Action>,
    beforePermission: seq<Action>,
    beforeWrite: seq<Action>,
    beforeMark: seq<Action>)

  datatype RollbackError = NotFound | Conflict | NotHealthy | StoreRefused

  /** No action in `env` belongs to controller `pid`. */
  predicate LeavesAlone(env: seq<Action>, pid: nat) {
    forall i :: 0 <= i < |env| ==> Actor(env[i]) != Some(pid)
  }

  predicate Undisturbed(inputs: ObserverInputs, pid: nat) {
    && LeavesAlone(inputs.beforeStatus, pid) && LeavesAlone(inputs.beforeRevision, pid)
    && LeavesAlone(inputs.beforeHistory, pid) && LeavesAlone(inputs.beforePermission, pid)
    && LeavesAlone(inputs.beforeWrite, pid) && LeavesAlone(inputs.beforeMark, pid)
  }

  lemma {:induction false} RunKeepsOthers(w: World, env: seq<Action>, pid: nat)
    requires LeavesAlone(env, pid)
    ensures ControllerOf(Run(w, env), pid) == ControllerOf(w, pid)
    decreases |env|
  {
    if env != [] {
      RunKeepsOthers(w, env[..|env| - 1], pid);
      OnlyActorMoves(Run(w, env[..|env| - 1]), env[|env| - 1]);
    }
  }

  lemma LogGrows(w: World, actions: seq<Action>)
    requires Inv(w)
    ensures Inv(Run(w, actions)) && w.db.log <= Run(w, actions).db.log
  {
    RunPreserves(w, actions);
  }

  lemma StoredGeneration(w: World, generation: nat)
    requires Inv(w) && generation in w.db.revisions
    ensures w.db.revisions[generation].generation == generation
  {
    assert RevisionOk(w.db.revisions[generation], Author(w.db, generation));
  }

  lemma ObservationsKeepLog(db: Db, instance: Service, status: Status)
    ensures RecordObservation(db, instance, status).log == db.log
  {
  }

  lemma FenceHolds(db: Db, generation: nat, spec: Spec, checks: Checks)
    requires UpdateSucceeds(db, Some(generation), spec, checks)
    ensures db.service.generation == generation && checks.Passed?
  {
  }

  lemma NothingHappened(w: World, env: seq<Action>)
    ensures env == [] ==> Run(w, env) == w
  {
  }

  /** Entry `i` of the log is a rollback of `generation` by controller code of this kind. */
  predicate Replaced(db: Db, i: nat, kind: Kind, generation: nat) {
    i < |db.log| && db.log[i].kind == kind && db.log[i].base == generation
  }

  /** The replaced revision tells that it was rolled back, unless it became ready meanwhile. */
  predicate Marked(db: Db, generation: nat) {
    generation in db.revisions ==> db.revisions[generation].phase == RolledBack || db.revisions[generation].readyAt.Some?
  }

  lemma MarkMarks(w: World, pid: nat)
    requires ControllerOf(w, pid).Marking?
    ensures var w' := Step(w, Mark(pid));
            && ControllerOf(w', pid) == Idle && w'.db.log == w.db.log
            && Marked(w'.db, ControllerOf(w, pid).generation)
  {
  }

  /** The fenced write adds its entry and leaves the mark to be made, or does nothing. */
  lemma FencedWrites(w: World, pid: nat, checks: Checks)
    requires ControllerOf(w, pid).Permitted? && ControllerOf(w, pid).current.principal.Some?
    ensures var c, w', n := ControllerOf(w, pid), Step(w, FencedRollback(pid, checks)), |w.db.log|;
            if Accepted(w.db, c.instance, c.previous, checks)
            then && ControllerOf(w', pid) == Marking(c.instance.generation) && w.db.log <= w'.db.log
                 && Replaced(w'.db, n, Automatic, c.instance.generation)
            else ControllerOf(w', pid) == Idle && w'.db.log == w.db.log
  {
    hide Restored, UpdateSucceeds;
  }

  predicate Quiet(inputs: ObserverInputs) {
    && inputs.beforeStatus == [] && inputs.beforeRevision == [] && inputs.beforeHistory == []
    && inputs.beforePermission == [] && inputs.beforeWrite == []
  }

  /** The newest healthy revision among the thirty newest ones, below this generation. */
  function PreviousOf(db: Db, generation: nat): Option<Revision> {
    FirstHealthyBelow(Newest(db.revisions, db.service.generation + 1, 30), generation)
  }

  /** The store accepts the restored specification over the generation that was observed. */
  predicate Accepted(db: Db, instance: Service, previous: Revision, checks: Checks) {
    UpdateSucceeds(db, Some(instance.generation), Restored(previous.spec, instance.spec), checks)
  }

  /** The observed revision is overdue, an older one can be restored, and its author still may. */
  ghost predicate RollbackDue(db: Db, instance: Service, inputs: ObserverInputs) {
    && instance.generation in db.revisions
    && DeadlinePassed(db.now, instance, db.revisions[instance.generation])
    && db.revisions[instance.generation].principal.Some? && inputs.allowed
    && CanRestore(db, instance, inputs.checks)
  }

  /** The newest healthy revision among the thirty newest, below the one observed, exists and is accepted. */
  ghost predicate CanRestore(db: Db, instance: Service, checks: Checks) {
    exists g: nat :: IsPick(db, g, instance.generation) && Accepted(db, instance, db.revisions[g], checks)
  }

  lemma PreviousIsPick(db: Db, instance: Service, checks: Checks)
    requires Sound(db) && instance.generation <= db.service.generation
    ensures CanRestore(db, instance, checks) <==>
            var previous := PreviousOf(db, instance.generation);
            previous.Some? && Accepted(db, instance, previous.value, checks)
  {
    hide Sound, Accepted, FirstHealthyBelow, Newest, Restorable;
    HistoryGivesNewestHealthy(db, instance.generation);
  }

  /** The same before the observation: it is recorded first, and may itself prove the revision healthy. */
  ghost predicate ObserverActs(db: Db, inputs: ObserverInputs) {
    var instance := db.service;
    && instance.state !in {Deleting, Removed}
    && inputs.status.Some? && inputs.status.value.observedGeneration == Some(instance.generation)
    && !Stopped(instance.spec) && !inputs.status.value.quotaExhausted
    && RollbackDue(RecordObservation(db, instance, inputs.status.value), instance, inputs)
  }

  lemma ObservedIsStored(w: World, actions: seq<Action>, pid: nat)
    requires Inv(w) && ControllerOf(Run(w, actions), pid).Overdue?
    ensures var v := Run(w, actions); Sound(v.db) && ControllerOf(v, pid).instance.generation <= v.db.service.generation
  {
    hide Run;
    RunPreserves(w, actions);
  }

  class ControlPlane {
    var world: World
    ghost const start: World
    ghost var trace: seq<Action>

    ghost predicate Valid()
      reads this
    {
      && Inv(start)
      && world == Run(start, trace)
    }

    constructor (w: World)
      requires Inv(w)
      ensures Valid() && world == w && start == w
    {
      world, start, trace := w, w, [];
    }

    /** One atomic step, by anyone. */
    method Perform(a: Action)
      requires Valid()
      modifies this
      ensures Valid()
      ensures world == Step(old(world), a)
      ensures trace == old(trace) + [a]
    {
      ghost var before := trace;
      world := Step(world, a);
      trace := trace + [a];
      assert trace[..|trace| - 1] == before;
    }

    /** The steps other parties take while this code awaits an answer. */
    method Interfere(env: seq<Action>, ghost pid: nat)
      requires Valid() && LeavesAlone(env, pid)
      modifies this
      ensures Valid()
      ensures world == Run(old(world), env) && trace == old(trace) + env
      ensures ControllerOf(world, pid) == old(ControllerOf(world, pid))
      ensures old(world.db.log) <= world.db.log
    {
      hide Inv, Step;
      ghost var before, first := trace, world;
      for i := 0 to |env|
        invariant Valid()
        invariant world == Run(first, env[..i]) && trace == before + env[..i]
      {
        assert env[..i + 1][..i] == env[..i];
        assert trace + [env[i]] == before + env[..i + 1];
        Perform(env[i]);
      }
      assert env[..|env|] == env;
      RunKeepsOthers(first, env, pid);
      LogGrows(start, before);
      LogGrows(first, env);
    }

    /** `observe`: returns whether it rolled the observed generation back. */
    method Observe(pid: nat, inputs: ObserverInputs) returns (rolledBack: bool)
      requires Valid() && ControllerOf(world, pid) == Idle && Undisturbed(inputs, pid)
      modifies this
      ensures Valid() && old(trace) <= trace
      ensures ControllerOf(world, pid) == Idle
      ensures rolledBack ==>
                && (exists i :: |old(world.db.log)| <= i && Replaced(world.db, i, Automatic, old(world.db.service.generation)))
                && Marked(world.db, old(world.db.service.generation))
      ensures Quiet(inputs) ==> (rolledBack <==> old(ObserverActs(world.db, inputs)))
    {
      hide Inv, Run, RecordObservation, RollbackDue;
      rolledBack := false;
      var instance := world.db.service;
      if instance.state in {Deleting, Removed} { return; }
      Perform(ListTargets(pid));
      ghost var listed := world;
      Interfere(inputs.beforeStatus, pid);
      NothingHappened(listed, inputs.beforeStatus);
      assert ControllerOf(world, pid) == Listed(instance);
      ghost var seen := world.db;
      Perform(Action.Observe(pid, inputs.status));
      if inputs.status.None? { return; }
      var status := inputs.status.value;
      ObservationsKeepLog(seen, instance, status);
      if status.observedGeneration != Some(instance.generation) { return; }
      if Stopped(instance.spec) || instance.state == Deleting || status.quotaExhausted { return; }
      rolledBack := RollBackIfOverdue(pid, instance, inputs);
    }

    /** The part of `observe` that runs once the observation is recorded. */
    method RollBackIfOverdue(pid: nat, instance: Service, inputs: ObserverInputs) returns (rolledBack: bool)
      requires Valid() && ControllerOf(world, pid) == Observed(instance) && Undisturbed(inputs, pid)
      modifies this
      ensures Valid() && old(trace) <= trace
      ensures ControllerOf(world, pid) == Idle
      ensures rolledBack ==>
                && (exists i :: |old(world.db.log)| <= i && Replaced(world.db, i, Automatic, instance.generation))
                && Marked(world.db, instance.generation)
      ensures Quiet(inputs) ==> (rolledBack <==> old(RollbackDue(world.db, instance, inputs)))
    {
      hide Inv, Run, ObserveStep, ReadHistoryStep, AuthorizeStep, FencedRollbackStep, ManualRollbackStep, RequestStep,
           ReadTargetStep, ApplyEdit, ApplyDelete, WorkerReport, MarkRolledBack, DeadlinePassed, PreviousOf, CanRestore;
      rolledBack := false;
      Interfere(inputs.beforeRevision, pid);
      NothingHappened(old(world), inputs.beforeRevision);
      var db := world.db;
      Perform(ReadCurrent(pid));
      if instance.generation !in db.revisions { return; }
      var current := db.revisions[instance.generation];
      if !DeadlinePassed(db.now, instance, current) { return; }
      rolledBack := RollBackOverdue(pid, instance, current, inputs);
    }

    /** The part of `observe` that runs once the deadline is known to have passed. */
    method RollBackOverdue(pid: nat, instance: Service, current: Revision, inputs: ObserverInputs)
      returns (rolledBack: bool)
      requires Valid() && ControllerOf(world, pid) == Overdue(instance, current) && Undisturbed(inputs, pid)
      modifies this
      ensures Valid() && old(trace) <= trace
      ensures ControllerOf(world, pid) == Idle
      ensures rolledBack ==>
                && (exists i :: |old(world.db.log)| <= i && Replaced(world.db, i, Automatic, instance.generation))
                && Marked(world.db, instance.generation)
      ensures Quiet(inputs) ==>
                (rolledBack <==>
                 current.principal.Some? && inputs.allowed && old(CanRestore(world.db, instance, inputs.checks)))
    {
      hide Inv, Run, ObserveStep, ReadCurrentStep, FencedRollbackStep, ManualRollbackStep, RequestStep, ReadTargetStep,
           ApplyEdit, ApplyDelete, WorkerReport, MarkRolledBack, Accepted, FirstHealthyBelow, Newest, CanRestore;
      rolledBack := false;
      ObservedIsStored(start, trace, pid);
      PreviousIsPick(world.db, instance, inputs.checks);
      Interfere(inputs.beforeHistory, pid);
      NothingHappened(old(world), inputs.beforeHistory);
      var previous := PreviousOf(world.db, instance.generation);
      ghost var before := world;
      Perform(ReadHistory(pid));
      if previous.None? || current.principal.None? { return; }
      assert world.db == before.db;
      ghost var read := world;
      Interfere(inputs.beforePermission, pid);
      NothingHappened(read, inputs.beforePermission);
      ghost var asked := world;
      Perform(Authorize(pid, inputs.allowed));
      assert world.db == asked.db;
      if !inputs.allowed { return; }
      rolledBack := WriteRollback(pid, instance, current, previous.value, inputs);
    }

    /** The fenced write and, when it succeeds, the mark on the replaced revision. */
    method WriteRollback(pid: nat, instance: Service, current: Revision, previous: Revision, inputs: ObserverInputs)
      returns (rolledBack: bool)
      requires Valid() && ControllerOf(world, pid) == Permitted(instance, current, previous) && Undisturbed(inputs, pid)
      requires current.principal.Some?
      modifies this
      ensures Valid() && old(trace) <= trace
      ensures ControllerOf(world, pid) == Idle
      ensures rolledBack ==>
                && (exists i :: |old(world.db.log)| <= i && Replaced(world.db, i, Automatic, instance.generation))
                && Marked(world.db, instance.generation)
      ensures Quiet(inputs) ==> (rolledBack <==> old(Accepted(world.db, instance, previous, inputs.checks)))
    {
      hide Inv, Run, Step, Restored, UpdateSucceeds, Marked;
      Interfere(inputs.beforeWrite, pid);
      NothingHappened(old(world), inputs.beforeWrite);
      var spec := RollbackSpec(previous.spec, instance.spec);
      rolledBack := UpdateSucceeds(world.db, Some(instance.generation), spec, inputs.checks);
      ghost var entry := |world.db.log|;
      FencedWrites(world, pid, inputs.checks);
      Perform(FencedRollback(pid, inputs.checks));
      if rolledBack {
        assert Replaced(world.db, entry, Automatic, instance.generation);
        Interfere(inputs.beforeMark, pid);
        MarkMarks(world, pid);
        Perform(Mark(pid));
        assert Replaced(world.db, entry, Automatic, instance.generation);
      }
    }

    /** The manual rollback handler, after authorisation. */
    method Rollback(
      pid: nat, target: nat, expected: nat, requester: int, checks: Checks,
      beforeTarget: seq<Action>, beforeWrite: seq<Action>)
      returns (result: Result<Service, RollbackError>)
      requires Valid() && ControllerOf(world, pid) == Idle
      requires LeavesAlone(beforeTarget, pid) && LeavesAlone(beforeWrite, pid)
      modifies this
      ensures Valid() && old(trace) <= trace
      ensures ControllerOf(world, pid) == Idle
      ensures result.Ok? ==>
                && result.value == world.db.service
                && old(world.db.service.generation) == expected
                && result.value.generation == expected + 1
                && world.db.log != []
                && Replaced(world.db, |world.db.log| - 1, Manual, expected)
                && world.db.log[|world.db.log| - 1].target == target
      ensures expected != old(world.db.service.generation) ==> result.Err?
      ensures beforeTarget == [] && beforeWrite == [] ==>
                (result.Ok? <==>
                 && old(world.db.service.state) != Removed && old(world.db.service.generation) == expected
                 && target in old(world.db.revisions) && old(world.db.revisions)[target].phase == Healthy && target < expected
                 && Accepted(old(world.db), old(world.db.service), old(world.db.revisions)[target], checks))
    {
      hide Inv, Run, ObserveStep, FencedRollbackStep, ManualRollbackStep, ReadCurrentStep, ReadHistoryStep, AuthorizeStep,
           ApplyEdit, ApplyDelete, WorkerReport, MarkRolledBack, Accepted;
      var current := world.db.service;
      if current.state == Removed { return Err(NotFound); }
      if current.generation != expected { return Err(Conflict); }
      Perform(RequestRollback(pid, target, expected, requester));
      ghost var requested := world;
      Interfere(beforeTarget, pid);
      NothingHappened(requested, beforeTarget);
      var db := world.db;
      Perform(ReadTarget(pid));
      if target !in db.revisions { return Err(NotFound); }
      var revision := db.revisions[target];
      if revision.phase != Healthy || target >= current.generation { return Err(NotHealthy); }
      LogGrows(start, trace);
      StoredGeneration(world, target);
      result := WriteManualRollback(pid, current, revision, requester, checks, beforeWrite);
    }

    method WriteManualRollback(
      pid: nat, current: Service, revision: Revision, requester: int, checks: Checks, beforeWrite: seq<Action>)
      returns (result: Result<Service, RollbackError>)
      requires Valid() && ControllerOf(world, pid) == Targeted(current, revision, requester)
      requires LeavesAlone(beforeWrite, pid)
      modifies this
      ensures Valid() && old(trace) <= trace
      ensures ControllerOf(world, pid) == Idle
      ensures result.Ok? ==>
                && result.value == world.db.service
                && result.value.generation == current.generation + 1
                && world.db.log != []
                && Replaced(world.db, |world.db.log| - 1, Manual, current.generation)
                && world.db.log[|world.db.log| - 1].target == revision.generation
      ensures beforeWrite == [] ==> (result.Ok? <==> old(Accepted(world.db, current, revision, checks)))
    {
      hide Inv, Run, Restored, UpdateSucceeds, MarkRolledBack;
      Interfere(beforeWrite, pid);
      NothingHappened(old(world), beforeWrite);
      var spec := RollbackSpec(revision.spec, current.spec);
      var written := UpdateSucceeds(world.db, Some(current.generation), spec, checks);
      if written { FenceHolds(world.db, current.generation, spec, checks); }
      Perform(FencedManualRollback(pid, checks));
      if !written { return Err(StoreRefused); }
      result := Ok(world.db.service);
    }
  }
}
