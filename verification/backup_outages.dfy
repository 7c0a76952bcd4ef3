/** What an outage of the provider does to the stored backups. */
module BackupOutages {
  import opened Outcomes
  import opened Json
  import opened BackupStatus
  import opened BackupReconciler

  const FLAG := "provider_unavailable"

  /** The provider could not be reached, or answered with anything but a refusal of this backup. */
  predicate IsOutage(report: Result<Value, Failure>) {
    match report
    case Err(Unreachable) => true
    case Err(ProviderStatus(code)) => code != 400 && code != 403 && code != 404 && code != 409
    case Ok(_) => false
  }

  /** What reconcilers do while every call to the provider fails; backups may still be requested. */
  predicate DuringOutage(a: Action) {
    match a
    case RequestDelete(_) => false
    case Expire(_) => false
    case Erase(_, Ok(Obj(fields))) => !("deleted" in fields && fields["deleted"] == Bool(true))
    case Ask(_, report, _) => IsOutage(report)
    case _ => true
  }

  ghost predicate SameButFlag(v: Value, v': Value) {
    v.Obj? && v'.Obj? && forall key :: key != FLAG ==>
      (key in v.fields <==> key in v'.fields) && (key in v.fields ==> v.fields[key] == v'.fields[key])
  }

  /** Nothing of the row changed, except that its status may now say that the provider is unavailable. */
  ghost predicate Unmoved(row: Row, later: Row) {
    && later.phase == row.phase && later.deleteRequested == row.deleteRequested && later.deletedAt == row.deletedAt
    && SameButFlag(row.status, later.status)
  }

  lemma UnmovedTransitive(a: Row, b: Row, c: Row)
    requires Unmoved(a, b) && Unmoved(b, c)
    ensures Unmoved(a, c)
  {
  }

  ghost predicate PassUnmoved(w: World, p: Pass) {
    && (forall i :: 0 <= i < |p.queue| ==> p.queue[i].id in w.rows && Unmoved(p.queue[i].row, w.rows[p.queue[i].id]))
    && (p.queue != [] ==> p.stage != Releasing)
    && (p.queue != [] && p.stage.Writing? ==>
          p.stage.phase == p.queue[0].row.phase && SameButFlag(p.queue[0].row.status, p.stage.status))
  }

  ghost predicate Still(start: World, w: World) {
    && (forall id :: id in start.rows ==> id in w.rows && Unmoved(start.rows[id], w.rows[id]))
    && (forall pid :: pid in w.passes ==> PassUnmoved(w, w.passes[pid]))
  }

  ghost predicate RowsUnmoved(w: World, w': World) {
    forall id :: id in w.rows ==> id in w'.rows && Unmoved(w.rows[id], w'.rows[id])
  }

  /** Writing back the phase a row has does nothing to it but replace its status. */
  lemma UpdateUnmoved(id: Id, row: Row, snap: Row, status: Value)
    requires RowOk(id, row) && Unmoved(snap, row) && SameButFlag(snap.status, status)
    ensures Unmoved(row, UpdateStatus(row, snap.phase, status))
  {
    hide Sanitised;
  }

  lemma PassStaysUnmoved(w: World, w': World, p: Pass)
    requires PassUnmoved(w, p) && RowsUnmoved(w, w')
    ensures PassUnmoved(w', p)
  {
    hide Unmoved, SameButFlag;
    forall i | 0 <= i < |p.queue| ensures p.queue[i].id in w'.rows && Unmoved(p.queue[i].row, w'.rows[p.queue[i].id]) {
      UnmovedTransitive(p.queue[i].row, w.rows[p.queue[i].id], w'.rows[p.queue[i].id]);
    }
  }

  lemma Settle(start: World, w: World, w': World, pid: nat)
    requires Still(start, w) && RowsUnmoved(w, w')
    requires w'.passes == w.passes
          || (pid in w'.passes && w'.passes == w.passes[pid := w'.passes[pid]] && PassUnmoved(w, w'.passes[pid]))
    ensures Still(start, w')
  {
    hide Unmoved, PassUnmoved;
    forall id | id in start.rows ensures id in w'.rows && Unmoved(start.rows[id], w'.rows[id]) {
      UnmovedTransitive(start.rows[id], w.rows[id], w'.rows[id]);
    }
    forall q | q in w'.passes ensures PassUnmoved(w', w'.passes[q]) {
      PassStaysUnmoved(w, w', w'.passes[q]);
    }
  }

  lemma Reflexive(w: World)
    requires Inv(w)
    ensures RowsUnmoved(w, w)
  {
    forall id | id in w.rows ensures Unmoved(w.rows[id], w.rows[id]) {
      assert RowOk(id, w.rows[id]);
    }
  }

  lemma AdvanceUnmoved(w: World, p: Pass)
    requires PassUnmoved(w, p) && p.queue != []
    ensures PassUnmoved(w, Advance(p))
  {
    hide Unmoved, SameButFlag;
    forall i | 0 <= i < |p.queue| - 1
      ensures p.queue[1..][i].id in w.rows && Unmoved(p.queue[1..][i].row, w.rows[p.queue[1..][i].id])
    {
      assert p.queue[1..][i] == p.queue[i + 1];
    }
  }

  lemma ClaimUnmoved(w: World, pid: nat, ids: seq<Id>, now: int)
    requires Inv(w) && Claimable(w, ids, now) && !Busy(w, pid)
    ensures PassUnmoved(w, ClaimStep(w, pid, ids, now).passes[pid])
  {
    Reflexive(w);
    hide Unmoved, RowOk;
  }

  lemma WritesUnmoved(w: World, pid: nat, id: Id, status: Value, snap: Row)
    requires Inv(w) && id in w.rows && Unmoved(snap, w.rows[id]) && SameButFlag(snap.status, status)
    ensures RowsUnmoved(w, SetRow(w, id, UpdateStatus(w.rows[id], snap.phase, status)))
  {
    assert RowOk(id, w.rows[id]);
    UpdateUnmoved(id, w.rows[id], snap, status);
    Reflexive(w);
    hide Unmoved, SameButFlag, RowOk, UpdateStatus;
  }

  lemma OutageDecision(s: Snapshot, report: Result<Value, Failure>, verifiedAt: string)
    requires IsOutage(report) && s.row.status.Obj?
    ensures Decide(s, report, verifiedAt).Writing? && Decide(s, report, verifiedAt).phase == s.row.phase
    ensures SameButFlag(s.row.status, Decide(s, report, verifiedAt).status)
  {
  }

  lemma EffectStaysStill(start: World, w: World, pid: nat, a: Action)
    requires Inv(w) && Still(start, w) && DuringOutage(a) && By(pid, a) && !a.Rotate? && !a.Write?
    ensures Still(start, Effect(w, a))
  {
    hide Unmoved, SameButFlag, RowOk, Decide, IsOutage, Claimable, SaysDeleted;
    Reflexive(w);
    if a.Claim? && Claimable(w, a.ids, a.now) && !Busy(w, pid) {
      ClaimUnmoved(w, pid, a.ids, a.now);
    } else if Busy(w, pid) {
      AdvanceUnmoved(w, w.passes[pid]);
      if a.Ask? && AtStage(w, pid, Asking) {
        SnapshotIsObject(w, pid);
        OutageDecision(Head(w, pid), a.report, a.verifiedAt);
      }
      if a.Erase? { SaysDeletedExactly(a.erased); }
    }
    Settle(start, w, Effect(w, a), pid);
  }

  lemma UserStaysStill(start: World, w: World, a: Action)
    requires Inv(w) && Still(start, w) && (a.Request? || a.SetRestoring?)
    ensures Still(start, Effect(w, a))
  {
    Reflexive(w);
    hide Unmoved, PassUnmoved, RowOk;
    Settle(start, w, Effect(w, a), 0);
  }

  lemma SnapshotIsObject(w: World, pid: nat)
    requires Inv(w) && Busy(w, pid)
    ensures Head(w, pid).row.status.Obj?
  {
    assert SnapshotOk(w, w.passes[pid].queue[0]);
  }

  lemma WriteStaysStill(start: World, w: World, pid: nat, a: Action)
    requires Inv(w) && Still(start, w) && By(pid, a) && (a.Rotate? || a.Write?)
    ensures Still(start, Effect(w, a))
  {
    hide Unmoved, SameButFlag, RowOk, Sanitised, UpdateStatus;
    Reflexive(w);
    if Busy(w, pid) {
      var p, s := w.passes[pid], Head(w, pid);
      AdvanceUnmoved(w, p);
      assert s.id in w.rows && Unmoved(p.queue[0].row, w.rows[p.queue[0].id]);
      if a.Rotate? {
        SnapshotIsObject(w, pid);
        SameAsItself(s.row.status);
        WritesUnmoved(w, pid, s.id, s.row.status, s.row);
      } else if p.stage.Writing? {
        WritesUnmoved(w, pid, s.id, p.stage.status, s.row);
      }
    }
    Settle(start, w, Effect(w, a), pid);
  }

  lemma SameAsItself(v: Value)
    requires v.Obj?
    ensures SameButFlag(v, v)
  {
  }

  lemma {:induction false} OutageKeepsStill(start: World, actions: seq<Action>)
    requires Inv(start) && forall pid :: !Busy(start, pid)
    requires forall i :: 0 <= i < |actions| ==> DuringOutage(actions[i])
    ensures Still(start, Run(start, actions))
    decreases |actions|
  {
    if actions == [] {
      Reflexive(start);
      forall pid | pid in start.passes ensures PassUnmoved(start, start.passes[pid]) {
        assert !Busy(start, pid);
      }
    } else {
      hide Effect, Inv, Unmoved, PassUnmoved, DuringOutage;
      var init, a := actions[..|actions| - 1], actions[|actions| - 1];
      var w := Run(start, init);
      OutageKeepsStill(start, init);
      RunPreserves(start, init);
      OutageStep(start, w, a);
      StepsAside(start, Effect(w, a), w.steps + 1);
    }
  }

  lemma OutageStep(start: World, w: World, a: Action)
    requires Inv(w) && Still(start, w) && DuringOutage(a)
    ensures Still(start, Effect(w, a))
  {
    hide Effect, Inv, Still;
    if a.Request? || a.SetRestoring? {
      UserStaysStill(start, w, a);
    } else if a.Rotate? || a.Write? {
      WriteStaysStill(start, w, a.pid, a);
    } else {
      EffectStaysStill(start, w, a.pid, a);
    }
  }

  lemma StepsAside(start: World, w: World, n: nat)
    requires Still(start, w)
    ensures Still(start, w.(steps := n))
  {
    hide Unmoved;
  }

  /**
  An outage of any length that starts while no reconciler is in the middle of a batch, over any number
  of reconcilers, passes and restarts, leaves every backup's phase and deletion as they were; its
  status can only gain the flag that the provider is unavailable.
  */
  lemma OutagesMoveNothing(before: seq<Action>, outage: seq<Action>, id: Id)
    requires var w := Run(EMPTY, before); id in w.rows && forall pid :: !Busy(w, pid)
    requires forall i :: 0 <= i < |outage| ==> DuringOutage(outage[i])
    ensures var w := Run(EMPTY, before);
            id in Run(w, outage).rows && Unmoved(w.rows[id], Run(w, outage).rows[id])
  {
    hide Run, Unmoved, PassUnmoved, DuringOutage;
    RunPreserves(EMPTY, before);
    OutageKeepsStill(Run(EMPTY, before), outage);
  }
}
