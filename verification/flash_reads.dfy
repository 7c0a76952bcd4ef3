/** What an observer had read when it rolled a revision back: that this revision was overdue and not ready. */
module FlashReads {
  import opened RollbackSpecs
  import opened FlashDeployments

  function Before(w: World, actions: seq<Action>, k: nat): World
    requires k <= |actions|
  {
    Run(w, actions[..k])
  }

  /** At position i an observer of generation g read its revision, which was not ready and past its deadline. */
  predicate ReadAt(w: World, actions: seq<Action>, i: nat, g: nat) {
    && i < |actions| && actions[i].ReadCurrent?
    && var v := Before(w, actions, i);
       var c := ControllerOf(v, actions[i].pid);
       && c.Observed? && c.instance.generation == g && g in v.db.revisions && v.db.revisions[g].readyAt.None?
       && DeadlinePassed(v.db.now, c.instance, v.db.revisions[g])
  }

  ghost predicate WasRead(w: World, actions: seq<Action>, g: nat) {
    exists i: nat :: ReadAt(w, actions, i, g)
  }

  /** This observer is past its read. */
  predicate PastRead(c: Controller) {
    c.Overdue? || c.Chosen? || c.Permitted?
  }

  ghost predicate AllRead(w: World, actions: seq<Action>, v: World) {
    && (forall pid: nat :: PastRead(ControllerOf(v, pid)) ==> WasRead(w, actions, ControllerOf(v, pid).instance.generation))
    && |w.db.log| <= |v.db.log|
    && (forall k :: |w.db.log| <= k < |v.db.log| && v.db.log[k].kind == Automatic ==> WasRead(w, actions, v.db.log[k].base))
  }

  lemma ReadStays(w: World, actions: seq<Action>, a: Action, g: nat)
    requires WasRead(w, actions, g)
    ensures WasRead(w, actions + [a], g)
  {
    hide Run, DeadlinePassed;
    var i: nat :| ReadAt(w, actions, i, g);
    assert (actions + [a])[..i] == actions[..i];
    assert ReadAt(w, actions + [a], i, g);
  }

  lemma ReadsNow(w: World, actions: seq<Action>, pid: nat)
    requires var v := Run(w, actions);
             var c := ControllerOf(v, pid);
             c.Observed? && PastRead(ControllerOf(Step(v, ReadCurrent(pid)), pid))
    ensures WasRead(w, actions + [ReadCurrent(pid)], ControllerOf(Run(w, actions), pid).instance.generation)
  {
    NotReady(Run(w, actions), pid);
    hide Run, DeadlinePassed;
    assert (actions + [ReadCurrent(pid)])[..|actions|] == actions;
    assert ReadAt(w, actions + [ReadCurrent(pid)], |actions|, ControllerOf(Run(w, actions), pid).instance.generation);
  }

  lemma NotReady(v: World, pid: nat)
    requires ControllerOf(v, pid).Observed? && PastRead(ControllerOf(Step(v, ReadCurrent(pid)), pid))
    ensures var instance := ControllerOf(v, pid).instance;
            && instance.generation in v.db.revisions && v.db.revisions[instance.generation].readyAt.None?
            && DeadlinePassed(v.db.now, instance, v.db.revisions[instance.generation])
  {
  }

  /** An observer gets past its read by reading, and then keeps the instance it read. */
  lemma ReaderMoves(v: World, a: Action, pid: nat)
    requires PastRead(ControllerOf(Step(v, a), pid))
    ensures var c, c' := ControllerOf(v, pid), ControllerOf(Step(v, a), pid);
            || (PastRead(c) && c.instance == c'.instance)
            || (a == ReadCurrent(pid) && c.Observed? && c.instance == c'.instance)
  {
    hide ApplyEdit, ApplyDelete, WorkerReport, RecordObservation, ApplyRollback, MarkRolledBack, DeadlinePassed,
         FirstHealthyBelow;
  }

  /** Only a permitted observer logs an automatic rollback, of the generation it observed. */
  lemma LogMoves(v: World, a: Action)
    ensures var log, log' := v.db.log, Step(v, a).db.log;
            || log' == log
            || (|log'| == |log| + 1 && log'[..|log|] == log
                && (log'[|log|].kind == Automatic ==>
                      a.FencedRollback? && ControllerOf(v, a.pid).Permitted?
                      && log'[|log|].base == ControllerOf(v, a.pid).instance.generation))
  {
    hide DeadlinePassed, FirstHealthyBelow, UpdateSucceeds, DeleteSucceeds, ProvesHealth, Restored;
  }

  lemma StepRead(w: World, actions: seq<Action>, a: Action)
    requires AllRead(w, actions, Run(w, actions))
    ensures AllRead(w, actions + [a], Step(Run(w, actions), a))
  {
    hide Run, Step, WasRead;
    var v := Run(w, actions);
    var v' := Step(v, a);
    forall pid: nat | PastRead(ControllerOf(v', pid))
      ensures WasRead(w, actions + [a], ControllerOf(v', pid).instance.generation)
    {
      ReaderMoves(v, a, pid);
      if PastRead(ControllerOf(v, pid)) {
        ReadStays(w, actions, a, ControllerOf(v, pid).instance.generation);
      } else {
        ReadsNow(w, actions, pid);
      }
    }
    LogMoves(v, a);
    forall k | |w.db.log| <= k < |v'.db.log| && v'.db.log[k].kind == Automatic
      ensures WasRead(w, actions + [a], v'.db.log[k].base)
    {
      if k < |v.db.log| {
        assert v'.db.log[k] == v.db.log[k];
      }
      ReadStays(w, actions, a, v'.db.log[k].base);
    }
  }

  lemma {:induction false} RunsAreRead(w: World, actions: seq<Action>)
    requires forall pid: nat :: ControllerOf(w, pid) == Idle
    ensures AllRead(w, actions, Run(w, actions))
    decreases |actions|
  {
    if actions != [] {
      hide Step, AllRead;
      var init, a := actions[..|actions| - 1], actions[|actions| - 1];
      RunsAreRead(w, init);
      assert init + [a] == actions;
      StepRead(w, init, a);
    }
  }

  /**
  In every run, an automatic rollback replaced a revision that its observer had read as overdue and not
  ready. (It may have become ready between that read and the write.)
  */
  lemma AutomaticRollbacksReadNotReady(w: World, actions: seq<Action>, k: nat)
    requires forall pid: nat :: ControllerOf(w, pid) == Idle
    requires |w.db.log| <= k < |Run(w, actions).db.log| && Run(w, actions).db.log[k].kind == Automatic
    ensures WasRead(w, actions, Run(w, actions).db.log[k].base)
  {
    hide Run, WasRead;
    RunsAreRead(w, actions);
  }
}
