/** The reconciler's loop over a claimed batch, while others act in between. */
module BackupLoops {
  import opened Outcomes
  import opened Json
  import opened BackupReconciler
  import opened BackupReleases

  /** How the calls about one backup are answered, and what others do before each of them. */
  datatype Answers = Answers(
    rotated: bool,
    read: Option<bool>,
    erased: Result<Value, Failure>,
    released: bool,
    at: int,
    report: Result<Value, Failure>,
    verifiedAt: string,
    written: bool,
    beforeCall: seq<Action>,
    beforeWrite: seq<Action>)

  predicate Spares(env: seq<Action>, pid: nat) {
    forall i :: 0 <= i < |env| ==> !By(pid, env[i])
  }

  predicate SamePass(w: World, w': World, pid: nat) {
    (pid in w.passes <==> pid in w'.passes) && (pid in w.passes ==> w.passes[pid] == w'.passes[pid])
  }

  lemma StepSparesPass(w: World, a: Action, pid: nat)
    requires !By(pid, a)
    ensures SamePass(w, Step(w, a), pid)
  {
    hide Decide, Claimable, SaysDeleted, UpdateStatus, ReleaseRow, DeletionRequested, Expired;
  }

  lemma {:induction false} RunSparesPass(w: World, env: seq<Action>, pid: nat)
    requires Spares(env, pid)
    ensures SamePass(w, Run(w, env), pid)
    decreases |env|
  {
    hide Step, By;
    if env != [] {
      RunSparesPass(w, env[..|env| - 1], pid);
      StepSparesPass(Run(w, env[..|env| - 1]), env[|env| - 1], pid);
    }
  }

  lemma RunSnoc(w: World, actions: seq<Action>, a: Action)
    ensures Run(w, actions + [a]) == Step(Run(w, actions), a)
  {
    hide Step;
    assert (actions + [a])[..|actions|] == actions;
  }

  class Backups {
    var world: World
    ghost var trace: seq<Action>

    ghost predicate Valid()
      reads this
    {
      world == Run(EMPTY, trace)
    }

    constructor ()
      ensures Valid() && world == EMPTY
    {
      world, trace := EMPTY, [];
    }

    method Perform(a: Action)
      requires Valid()
      modifies this
      ensures Valid() && world == Step(old(world), a) && trace == old(trace) + [a]
    {
      hide Step;
      RunSnoc(EMPTY, trace, a);
      world := Step(world, a);
      trace := trace + [a];
    }

    method Interfere(env: seq<Action>, pid: nat)
      requires Valid() && Spares(env, pid)
      modifies this
      ensures Valid() && trace == old(trace) + env && SamePass(old(world), world, pid)
      ensures env == [] ==> world == old(world)
    {
      hide Step, Spares;
      ghost var first, before := world, trace;
      for i := 0 to |env|
        invariant Valid() && world == Run(first, env[..i]) && trace == before + env[..i]
      {
        assert env[..i + 1] == env[..i] + [env[i]];
        RunSnoc(first, env[..i], env[i]);
        assert before + env[..i + 1] == before + env[..i] + [env[i]];
        Perform(env[i]);
      }
      assert env[..|env|] == env;
      RunSparesPass(first, env, pid);
    }

    /** One tick: claim a batch and work through all of it, in order. */
    method ReconcileBatch(pid: nat, ids: seq<Id>, now: int, answers: seq<Answers>)
      requires Valid() && !Busy(world, pid) && |answers| == |ids|
      requires forall i :: 0 <= i < |ids| ==> Spares(answers[i].beforeCall, pid) && Spares(answers[i].beforeWrite, pid)
      modifies this
      ensures Valid() && !Busy(world, pid) && old(trace) + [Claim(pid, ids, now)] <= trace
      ensures forall id :: id in world.rows && world.rows[id].phase == "deleted" ==> Released(trace, id)
    {
      hide Run, Spares, Claimable, Effect, Released;
      var claimed := Claimable(world, ids, now);
      ghost var before := world;
      Perform(Claim(pid, ids, now));
      Claims(before, pid, ids, now);
      if !claimed { AllJustified(trace); return; }
      for n := 0 to |ids|
        invariant Valid() && old(trace) + [Claim(pid, ids, now)] <= trace
        invariant pid in world.passes && world.passes[pid].stage == Rotating && |world.passes[pid].queue| == |ids| - n
      {
        ReconcileOne(pid, answers[n]);
      }
      AllJustified(trace);
    }

    /** The loop's body: whatever is answered, this backup is left behind and the next one is due. */
    method ReconcileOne(pid: nat, answers: Answers)
      requires Valid() && AtStage(world, pid, Rotating)
      requires Spares(answers.beforeCall, pid) && Spares(answers.beforeWrite, pid)
      modifies this
      ensures Valid() && old(trace) <= trace && pid in world.passes
      ensures world.passes[pid].stage == Rotating && world.passes[pid].queue == old(world.passes[pid].queue)[1..]
    {
      hide Run, Spares, UpdateStatus;
      var backup := Head(world, pid);
      Perform(Rotate(pid, answers.rotated));
      Interfere(answers.beforeCall, pid);
      if backup.row.deleteRequested {
        EraseOne(pid, answers);
      } else {
        AskOne(pid, answers);
      }
    }

    /**
    Deleting at the provider. A pending restore, also one that could not be ruled out, and anything but
    a confirmed deletion leave every row alone; a confirmed one is released, by one statement at the end.
    */
    method EraseOne(pid: nat, answers: Answers)
      requires Valid() && AtStage(world, pid, Checking) && Spares(answers.beforeWrite, pid)
      modifies this
      ensures Valid() && old(trace) <= trace && pid in world.passes
      ensures world.passes[pid].stage == Rotating && world.passes[pid].queue == old(world.passes[pid].queue)[1..]
      ensures !old(Confirmed(world, pid, answers)) ==>
                && world.rows == old(world.rows)
                && forall i :: |old(trace)| <= i < |trace| ==> !trace[i].Release?
      ensures old(Confirmed(world, pid, answers)) ==>
                && trace == old(trace) + [CheckRestore(pid, Some(false)), Erase(pid, answers.erased)] + answers.beforeWrite
                            + [Release(pid, answers.released, answers.at)]
                && var id := old(Head(world, pid).id);
                   answers.released ==> id in world.rows && world.rows[id].phase == "deleted" && world.rows[id].deletedAt.Some?
      ensures answers.beforeWrite == [] ==>
                var id, rows := old(Head(world, pid).id), old(world.rows);
                && id in rows
                && (if old(Confirmed(world, pid, answers)) && answers.released
                    then id in world.rows && TurnedOver(rows[id], world.rows[id], answers.at)
                         && world.rows == rows[id := world.rows[id]]
                    else world.rows == rows)
    {
      hide Run, Spares, ReleaseStep, SaysDeleted, ClaimStep, RotateStep, AskStep, WriteStep, StopStep, RequestStep, RowStep,
           TurnedOver;
      var id := Head(world, pid).id;
      var restoring := id in world.restoring;
      QueuedRowExists(trace, pid);
      SaysDeletedExactly(answers.erased);
      Perform(CheckRestore(pid, if answers.read.None? then None else Some(restoring)));
      if answers.read.None? || restoring { return; }
      Perform(Erase(pid, answers.erased));
      if !SaysDeleted(answers.erased) { return; }
      ReleaseOne(pid, answers);
    }

    /** The release of a row whose deletion the provider confirmed. */
    method ReleaseOne(pid: nat, answers: Answers)
      requires Valid() && AtStage(world, pid, Releasing) && Spares(answers.beforeWrite, pid)
      requires Head(world, pid).id in world.rows
      modifies this
      ensures Valid() && pid in world.passes
      ensures world.passes[pid].stage == Rotating && world.passes[pid].queue == old(world.passes[pid].queue)[1..]
      ensures trace == old(trace) + answers.beforeWrite + [Release(pid, answers.released, answers.at)]
      ensures var id := old(Head(world, pid).id);
              answers.released ==> id in world.rows && world.rows[id].phase == "deleted" && world.rows[id].deletedAt.Some?
      ensures answers.beforeWrite == [] ==>
                var id, rows := old(Head(world, pid).id), old(world.rows);
                if answers.released
                then id in world.rows && TurnedOver(rows[id], world.rows[id], answers.at)
                     && world.rows == rows[id := world.rows[id]]
                else world.rows == rows
    {
      hide Run, Spares, ReleaseRow, ClaimStep, RotateStep, AskStep, WriteStep, StopStep, RequestStep, RowStep,
           CheckRestoreStep, EraseStep;
      var id := Head(world, pid).id;
      Interfere(answers.beforeWrite, pid);
      ReleasingRowIsDue(trace, pid);
      ghost var before := world;
      Perform(Release(pid, answers.released, answers.at));
      ReleaseDeletes(before.rows[id], answers.at);
    }

    /** Asking the provider, then one write of what was decided: its status, and its phase unless deletion is requested. */
    method AskOne(pid: nat, answers: Answers)
      requires Valid() && AtStage(world, pid, Asking) && Spares(answers.beforeWrite, pid)
      modifies this
      ensures Valid() && old(trace) <= trace && pid in world.passes
      ensures world.passes[pid].stage == Rotating && world.passes[pid].queue == old(world.passes[pid].queue)[1..]
      ensures trace == old(trace) + [Ask(pid, answers.report, answers.verifiedAt)] + answers.beforeWrite
                       + [Write(pid, answers.written)]
      ensures var id, decision := old(Head(world, pid).id), old(Decide(Head(world, pid), answers.report, answers.verifiedAt));
              && decision.Writing?
              && (answers.written ==>
                    && id in world.rows && world.rows[id].status == decision.status
                    && (!world.rows[id].deleteRequested && world.rows[id].deletedAt.None? ==>
                          world.rows[id].phase == decision.phase))
    {
      hide Run, Spares, Decide;
      DecideWrites(Head(world, pid), answers.report, answers.verifiedAt);
      Perform(Ask(pid, answers.report, answers.verifiedAt));
      Interfere(answers.beforeWrite, pid);
      QueuedRowExists(trace, pid);
      Perform(Write(pid, answers.written));
    }
  }

  /** The restore state was read, no restore was pending, and the provider said that the backup is deleted. */
  predicate Confirmed(w: World, pid: nat, answers: Answers) {
    && Busy(w, pid) && answers.read.Some? && Head(w, pid).id !in w.restoring
    && match answers.erased
       case Ok(Obj(fields)) => "deleted" in fields && fields["deleted"] == Bool(true)
       case _ => false
  }

  /** The row as a release leaves it, or as it was if it had been released before. */
  predicate TurnedOver(row: Row, later: Row, at: int) {
    && later.phase == "deleted" && later.status == Obj(map[]) && later.deleteRequested
    && later.deletedAt == (if row.deletedAt.Some? then row.deletedAt else Some(at))
  }

  lemma QueuedRowExists(actions: seq<Action>, pid: nat)
    requires Busy(Run(EMPTY, actions), pid)
    ensures Head(Run(EMPTY, actions), pid).id in Run(EMPTY, actions).rows
  {
    hide Run, RowOk, StageOk;
    RunPreserves(EMPTY, actions);
    var w := Run(EMPTY, actions);
    assert SnapshotOk(w, w.passes[pid].queue[0]);
  }

  lemma ReleasingRowIsDue(actions: seq<Action>, pid: nat)
    requires AtStage(Run(EMPTY, actions), pid, Releasing)
    ensures var w := Run(EMPTY, actions);
            Head(w, pid).id in w.rows && w.rows[Head(w, pid).id].deleteRequested
  {
    hide Run, RowOk;
    RunPreserves(EMPTY, actions);
    var w := Run(EMPTY, actions);
    assert SnapshotOk(w, w.passes[pid].queue[0]);
  }

  lemma ReleaseDeletes(row: Row, at: int)
    requires row.deleteRequested
    ensures TurnedOver(row, ReleaseRow(row, at), at)
  {
  }

  ghost predicate Released(actions: seq<Action>, id: Id) {
    exists e :: Justified(actions, id, e)
  }

  lemma AllJustified(actions: seq<Action>)
    ensures forall id :: id in Run(EMPTY, actions).rows && Run(EMPTY, actions).rows[id].phase == "deleted" ==>
              Released(actions, id)
  {
    hide Run, Justified;
    forall id | id in Run(EMPTY, actions).rows && Run(EMPTY, actions).rows[id].phase == "deleted"
      ensures Released(actions, id)
    {
      var e := ReleasesAreJustified(actions, id);
    }
  }

  lemma Claims(w: World, pid: nat, ids: seq<Id>, now: int)
    requires !Busy(w, pid)
    ensures var w' := Step(w, Claim(pid, ids, now));
            if Claimable(w, ids, now)
            then pid in w'.passes && w'.passes[pid].stage == Rotating && |w'.passes[pid].queue| == |ids|
            else !Busy(w', pid)
  {
  }
}
