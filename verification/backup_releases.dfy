/** A row is released only on evidence: two answers at earlier positions of the run, for the same backup and pass. */
module BackupReleases {
  import opened Outcomes
  import opened Json
  import opened BackupReconciler

  function Before(actions: seq<Action>, k: nat): World
    requires k <= |actions|
  {
    Run(EMPTY, actions[..k])
  }

  /** At position k this reconciler was working on this backup, in this pass. */
  predicate WorksOn(actions: seq<Action>, k: nat, pid: nat, id: Id, round: nat) {
    && k < |actions| && Busy(Before(actions, k), pid)
    && Head(Before(actions, k), pid).id == id && Before(actions, k).passes[pid].round == round
  }

  /** There it read that no restore of the backup was pending, which was so. */
  predicate ReadNoRestore(actions: seq<Action>, k: nat, pid: nat, id: Id, round: nat) {
    WorksOn(actions, k, pid, id, round) && actions[k] == CheckRestore(pid, Some(false)) && id !in Before(actions, k).restoring
  }

  /** There the provider answered the deletion with an object whose member "deleted" is true. */
  predicate HeardDeleted(actions: seq<Action>, k: nat, pid: nat, id: Id, round: nat) {
    && WorksOn(actions, k, pid, id, round)
    && match actions[k]
       case Erase(who, Ok(Obj(fields))) => who == pid && "deleted" in fields && fields["deleted"] == Bool(true)
       case _ => false
  }

  ghost predicate Justified(actions: seq<Action>, id: Id, e: Evidence) {
    exists round: nat ::
      && e.checked < e.confirmed
      && ReadNoRestore(actions, e.checked, e.pid, id, round)
      && HeardDeleted(actions, e.confirmed, e.pid, id, round)
  }

  predicate PassJustified(actions: seq<Action>, pid: nat, p: Pass) {
    p.queue != [] ==>
      && (p.stage == Erasing ==> ReadNoRestore(actions, p.checked, pid, p.queue[0].id, p.round))
      && (p.stage == Releasing ==>
            && p.checked < p.confirmed
            && ReadNoRestore(actions, p.checked, pid, p.queue[0].id, p.round)
            && HeardDeleted(actions, p.confirmed, pid, p.queue[0].id, p.round))
  }

  ghost predicate Backed(actions: seq<Action>, w: World) {
    && w.steps == |actions|
    && (forall pid :: pid in w.passes ==> PassJustified(actions, pid, w.passes[pid]))
    && (forall id :: id in w.releases ==> Justified(actions, id, w.releases[id]))
    && (forall id :: id in w.rows && w.rows[id].deletedAt.Some? ==> id in w.releases)
  }

  lemma PositionsStay(actions: seq<Action>, a: Action, k: nat)
    requires k < |actions|
    ensures Before(actions + [a], k) == Before(actions, k) && (actions + [a])[k] == actions[k]
  {
    assert (actions + [a])[..k] == actions[..k];
  }

  lemma ReadStays(actions: seq<Action>, a: Action, k: nat, pid: nat, id: Id, round: nat)
    requires k < |actions|
    ensures ReadNoRestore(actions, k, pid, id, round) ==> ReadNoRestore(actions + [a], k, pid, id, round)
    ensures HeardDeleted(actions, k, pid, id, round) ==> HeardDeleted(actions + [a], k, pid, id, round)
  {
    hide Run, SaysDeleted;
    PositionsStay(actions, a, k);
  }

  lemma JustifiedStays(actions: seq<Action>, a: Action, id: Id, e: Evidence)
    requires Justified(actions, id, e)
    ensures Justified(actions + [a], id, e)
  {
    var round: nat :|
      && e.checked < e.confirmed
      && ReadNoRestore(actions, e.checked, e.pid, id, round)
      && HeardDeleted(actions, e.confirmed, e.pid, id, round);
    assert e.confirmed < |actions|;
    hide ReadNoRestore, HeardDeleted;
    ReadStays(actions, a, e.checked, e.pid, id, round);
    ReadStays(actions, a, e.confirmed, e.pid, id, round);
  }

  lemma PassStays(actions: seq<Action>, a: Action, pid: nat, p: Pass)
    requires PassJustified(actions, pid, p)
    ensures PassJustified(actions + [a], pid, p)
  {
    if p.queue != [] && (p.stage == Erasing || p.stage == Releasing) {
      assert p.checked < |actions|;
      assert p.stage == Releasing ==> p.confirmed < |actions|;
      hide ReadNoRestore, HeardDeleted;
      ReadStays(actions, a, p.checked, pid, p.queue[0].id, p.round);
      if p.stage == Releasing {
        ReadStays(actions, a, p.confirmed, pid, p.queue[0].id, p.round);
      }
    }
  }

  /** The only ways into the two stages that need evidence. */
  lemma StageChanges(w: World, a: Action, pid: nat)
    requires pid in Step(w, a).passes && Step(w, a).passes[pid].queue != []
    ensures var p := Step(w, a).passes[pid];
            || (pid in w.passes && w.passes[pid] == p)
            || (p.stage != Erasing && p.stage != Releasing)
            || (AtStage(w, pid, Checking) && a == CheckRestore(pid, Some(false)) && Head(w, pid).id !in w.restoring
                && p == w.passes[pid].(stage := Erasing, checked := w.steps))
            || (AtStage(w, pid, Erasing) && a.Erase? && a.pid == pid && SaysDeleted(a.erased)
                && p == w.passes[pid].(stage := Releasing, confirmed := w.steps))
  {
    hide Claimable, Decide, SaysDeleted, UpdateStatus, ReleaseRow, DeletionRequested, Expired;
    if a.Ask? && Busy(w, a.pid) {
      DecideWrites(Head(w, a.pid), a.report, a.verifiedAt);
    }
  }

  /** The pass an action belongs to ends up with the evidence its new stage needs. */
  lemma OwnPass(actions: seq<Action>, a: Action, w: World, pid: nat)
    requires w == Run(EMPTY, actions) && Backed(actions, w)
    requires pid in Step(w, a).passes
    ensures PassJustified(actions + [a], pid, Step(w, a).passes[pid])
  {
    hide Run, Step, SaysDeleted, ReadNoRestore, HeardDeleted;
    var p' := Step(w, a).passes[pid];
    if p'.queue != [] && (p'.stage == Erasing || p'.stage == Releasing) {
      StageChanges(w, a, pid);
      PassStays(actions, a, pid, w.passes[pid]);
      if w.passes[pid] != p' {
        if p'.stage == Erasing {
          NowRead(actions, a, w, pid);
        } else {
          NowHeard(actions, a, w, pid);
          Within(actions, w.passes[pid].checked, pid, p'.queue[0].id, p'.round);
        }
      }
    }
  }

  lemma Within(actions: seq<Action>, k: nat, pid: nat, id: Id, round: nat)
    requires ReadNoRestore(actions, k, pid, id, round)
    ensures k < |actions|
  {
  }

  lemma NowRead(actions: seq<Action>, a: Action, w: World, pid: nat)
    requires w == Run(EMPTY, actions) && w.steps == |actions| && Busy(w, pid) && a == CheckRestore(pid, Some(false))
    requires Head(w, pid).id !in w.restoring
    ensures ReadNoRestore(actions + [a], |actions|, pid, Head(w, pid).id, w.passes[pid].round)
  {
    hide Run, HeardDeleted;
    var longer := actions + [a];
    assert longer[..|actions|] == actions && longer[|actions|] == a;
    assert WorksOn(longer, |actions|, pid, Head(w, pid).id, w.passes[pid].round);
  }

  lemma NowHeard(actions: seq<Action>, a: Action, w: World, pid: nat)
    requires w == Run(EMPTY, actions) && w.steps == |actions| && Busy(w, pid)
    requires a.Erase? && a.pid == pid && SaysDeleted(a.erased)
    ensures HeardDeleted(actions + [a], |actions|, pid, Head(w, pid).id, w.passes[pid].round)
  {
    hide Run, SaysDeleted;
    SaysDeletedExactly(a.erased);
    assert (actions + [a])[..|actions|] == actions;
  }

  lemma ReleasesStay(actions: seq<Action>, a: Action, w: World, id: Id)
    requires Backed(actions, w) && id in Step(w, a).releases
    ensures Justified(actions + [a], id, Step(w, a).releases[id])
  {
    hide Run, Claimable, Decide, UpdateStatus, ReleaseRow, DeletionRequested, Expired, Justified, ReadNoRestore, HeardDeleted;
    if id in w.releases {
      JustifiedStays(actions, a, id, w.releases[id]);
    } else {
      var p := w.passes[a.pid];
      assert PassJustified(actions, a.pid, p);
      Conclude(actions, id, Evidence(a.pid, p.checked, p.confirmed), p.round);
      JustifiedStays(actions, a, id, Evidence(a.pid, p.checked, p.confirmed));
    }
  }

  lemma Conclude(actions: seq<Action>, id: Id, e: Evidence, round: nat)
    requires e.checked < e.confirmed
    requires ReadNoRestore(actions, e.checked, e.pid, id, round) && HeardDeleted(actions, e.confirmed, e.pid, id, round)
    ensures Justified(actions, id, e)
  {
  }

  lemma TombstonesHaveReleases(w: World, a: Action, id: Id)
    requires forall k :: k in w.rows && w.rows[k].deletedAt.Some? ==> k in w.releases
    requires id in Step(w, a).rows && Step(w, a).rows[id].deletedAt.Some?
    ensures id in Step(w, a).releases
  {
    hide Claimable, Decide;
  }

  lemma {:induction false} RunsAreBacked(actions: seq<Action>)
    ensures Backed(actions, Run(EMPTY, actions))
    decreases |actions|
  {
    if actions != [] {
      var init, a := actions[..|actions| - 1], actions[|actions| - 1];
      var w := Run(EMPTY, init);
      hide Step, PassJustified, Justified;
      RunsAreBacked(init);
      assert init + [a] == actions;
      assert Step(w, a).steps == w.steps + 1 by { CountsSteps(w, a); }
      forall pid | pid in Step(w, a).passes ensures PassJustified(actions, pid, Step(w, a).passes[pid]) {
        OwnPass(init, a, w, pid);
      }
      forall id | id in Step(w, a).releases ensures Justified(actions, id, Step(w, a).releases[id]) {
        ReleasesStay(init, a, w, id);
      }
      forall id | id in Step(w, a).rows && Step(w, a).rows[id].deletedAt.Some? ensures id in Step(w, a).releases {
        TombstonesHaveReleases(w, a, id);
      }
    }
  }

  lemma CountsSteps(w: World, a: Action)
    ensures Step(w, a).steps == w.steps + 1
  {
    hide Effect;
  }

  /**
  In every run of any number of reconcilers, a released backup was confirmed deleted by the provider,
  for that same id, in a pass that had before that read that no restore of it was pending.
  */
  lemma ReleasesAreJustified(actions: seq<Action>, id: Id) returns (e: Evidence)
    requires id in Run(EMPTY, actions).rows && Run(EMPTY, actions).rows[id].phase == "deleted"
    ensures Justified(actions, id, e)
  {
    hide Run, Justified;
    RunsAreBacked(actions);
    StatusesAreSafe(actions, id);
    e := Run(EMPTY, actions).releases[id];
  }
}
