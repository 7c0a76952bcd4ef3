/**
What reconcilers write from stale snapshots. Each write is traced to the claim it works from, and a
phase that is turned back is traced to the write of another party that the snapshot missed.
*/
module BackupStaleness {
  import opened Outcomes
  import opened Json
  import opened BackupStatus
  import opened BackupReconciler
  import opened BackupReleases

  // ---------------------------------------------------------------- where a pass comes from

  /** The queue holds rows as they were at the claim, each once; a decision is that of the question asked. */
  ghost predicate Traced(actions: seq<Action>, pid: nat, p: Pass) {
    p.queue != [] ==>
      && p.claimed < |actions| && actions[p.claimed].Claim? && actions[p.claimed].pid == pid
      && (forall i :: 0 <= i < |p.queue| ==>
            && p.queue[i].id in Before(actions, p.claimed).rows
            && p.queue[i].row == Before(actions, p.claimed).rows[p.queue[i].id])
      && (forall i, j :: 0 <= i < j < |p.queue| ==> p.queue[i].id != p.queue[j].id)
      && (p.stage.Writing? ==>
            && p.claimed < p.asked < |actions| && actions[p.asked].Ask? && actions[p.asked].pid == pid
            && p.stage == Decide(p.queue[0], actions[p.asked].report, actions[p.asked].verifiedAt))
  }

  /** How a step can change a pass. */
  ghost predicate PassMoves(w: World, a: Action, pid: nat, p': Pass) {
    || (pid in w.passes && p' == w.passes[pid])
    || (a.Claim? && a.pid == pid && Claimable(w, a.ids, a.now) && |p'.queue| == |a.ids| && p'.stage == Rotating
        && p'.claimed == w.steps
        && forall i :: 0 <= i < |a.ids| ==> a.ids[i] in w.rows && p'.queue[i] == Snapshot(a.ids[i], w.rows[a.ids[i]]))
    || (Busy(w, pid) && By(pid, a) && !a.Claim? && p'.claimed == w.passes[pid].claimed && p'.queue == w.passes[pid].queue[1..]
        && !p'.stage.Writing?)
    || (Busy(w, pid) && By(pid, a) && !a.Claim? && p'.claimed == w.passes[pid].claimed && p'.queue == w.passes[pid].queue
        && (p'.stage.Writing? ==>
              a.Ask? && p'.asked == w.steps && p'.stage == Decide(Head(w, pid), a.report, a.verifiedAt)))
  }

  lemma StepMovesPass(w: World, a: Action, pid: nat)
    requires pid in Step(w, a).passes && Step(w, a).passes[pid].queue != []
    ensures PassMoves(w, a, pid, Step(w, a).passes[pid])
  {
    hide Decide, SaysDeleted, UpdateStatus, ReleaseRow, DeletionRequested, Expired;
  }

  lemma TracedStays(actions: seq<Action>, a: Action, pid: nat, p: Pass)
    requires Traced(actions, pid, p)
    ensures Traced(actions + [a], pid, p)
  {
    hide Run, Decide;
    if p.queue != [] {
      PositionsStay(actions, a, p.claimed);
      if p.stage.Writing? { PositionsStay(actions, a, p.asked); }
    }
  }

  lemma TracedAdvances(actions: seq<Action>, pid: nat, p: Pass, p': Pass)
    requires Traced(actions, pid, p) && p.queue != [] && p'.claimed == p.claimed && !p'.stage.Writing?
    requires p'.queue == p.queue || p'.queue == p.queue[1..]
    ensures Traced(actions, pid, p')
  {
    hide Run, Decide, Before;
  }

  lemma TracedFresh(actions: seq<Action>, a: Action, w: World, pid: nat, p: Pass)
    requires w == Run(EMPTY, actions) && w.steps == |actions| && a.Claim? && a.pid == pid && Claimable(w, a.ids, a.now)
    requires |p.queue| == |a.ids| && p.stage == Rotating && p.claimed == w.steps
    requires forall i :: 0 <= i < |a.ids| ==> a.ids[i] in w.rows && p.queue[i] == Snapshot(a.ids[i], w.rows[a.ids[i]])
    ensures Traced(actions + [a], pid, p)
  {
    hide Run, Decide;
    assert (actions + [a])[..|actions|] == actions;
  }

  lemma TracedAsks(actions: seq<Action>, a: Action, pid: nat, p: Pass, p': Pass)
    requires Traced(actions, pid, p) && p.queue != [] && a.Ask? && a.pid == pid
    requires p'.claimed == p.claimed && p'.queue == p.queue && p'.asked == |actions|
    requires p'.stage == Decide(p.queue[0], a.report, a.verifiedAt)
    ensures Traced(actions + [a], pid, p')
  {
    hide Run, Decide;
    PositionsStay(actions, a, p.claimed);
  }

  lemma StepTraced(actions: seq<Action>, a: Action, w: World, pid: nat)
    requires w == Run(EMPTY, actions) && w.steps == |actions|
    requires pid in w.passes ==> Traced(actions, pid, w.passes[pid])
    requires pid in Step(w, a).passes
    ensures Traced(actions + [a], pid, Step(w, a).passes[pid])
  {
    hide Run, Step, Decide, Claimable;
    var p' := Step(w, a).passes[pid];
    if p'.queue != [] {
      StepMovesPass(w, a, pid);
      hide Traced;
      if pid in w.passes && p' == w.passes[pid] {
        TracedStays(actions, a, pid, p');
      } else if a.Claim? {
        TracedFresh(actions, a, w, pid, p');
      } else if p'.stage.Writing? {
        TracedAsks(actions, a, pid, w.passes[pid], p');
      } else {
        TracedAdvances(actions, pid, w.passes[pid], p');
        TracedStays(actions, a, pid, p');
      }
    }
  }

  // ---------------------------------------------------------------- who wrote a row

  /** The step writes this row. */
  predicate Touches(w: World, a: Action, id: Id) {
    match a
    case Request(x) => x == id && id !in w.rows
    case RequestDelete(x) => x == id
    case Expire(x) => x == id
    case Rotate(pid, rotated) => rotated && AtStage(w, pid, Rotating) && Head(w, pid).id == id
    case Release(pid, released, _) => released && AtStage(w, pid, Releasing) && Head(w, pid).id == id
    case Write(pid, written) => written && Busy(w, pid) && w.passes[pid].stage.Writing? && Head(w, pid).id == id
    case _ => false
  }

  lemma UntouchedRow(w: World, a: Action, id: Id)
    requires id in w.rows && !Touches(w, a, id)
    ensures id in Step(w, a).rows && Step(w, a).rows[id] == w.rows[id]
  {
    hide Claimable, Decide, SaysDeleted, UpdateStatus, ReleaseRow, DeletionRequested, Expired;
  }

  /** Another party than this reconciler wrote the row at position j. */
  predicate ForeignAt(actions: seq<Action>, j: nat, id: Id, pid: nat) {
    j < |actions| && Touches(Before(actions, j), actions[j], id) && !By(pid, actions[j])
  }

  ghost predicate ForeignSince(actions: seq<Action>, k: nat, id: Id, pid: nat) {
    exists j: nat :: k < j && ForeignAt(actions, j, id, pid)
  }

  lemma ForeignStays(actions: seq<Action>, a: Action, k: nat, id: Id, pid: nat)
    requires ForeignSince(actions, k, id, pid)
    ensures ForeignSince(actions + [a], k, id, pid)
  {
    hide Run, Touches, By;
    var j: nat :| k < j && ForeignAt(actions, j, id, pid);
    PositionsStay(actions, a, j);
    assert ForeignAt(actions + [a], j, id, pid);
  }

  lemma ForeignNow(actions: seq<Action>, a: Action, k: nat, id: Id, pid: nat)
    requires k < |actions| && Touches(Run(EMPTY, actions), a, id) && !By(pid, a)
    ensures ForeignSince(actions + [a], k, id, pid)
  {
    hide Run, Touches, By;
    assert (actions + [a])[..|actions|] == actions;
    assert ForeignAt(actions + [a], |actions|, id, pid);
  }

  /** A queued row is still as it was claimed, or somebody else wrote it since. */
  ghost predicate Explained(actions: seq<Action>, w: World, pid: nat, p: Pass, s: Snapshot) {
    s.id in w.rows && (w.rows[s.id] == s.row || ForeignSince(actions, p.claimed, s.id, pid))
  }

  ghost predicate AllTraced(actions: seq<Action>, w: World) {
    && w.steps == |actions|
    && (forall pid :: pid in w.passes ==> Traced(actions, pid, w.passes[pid]))
    && (forall pid, i :: pid in w.passes && 0 <= i < |w.passes[pid].queue| ==>
          Explained(actions, w, pid, w.passes[pid], w.passes[pid].queue[i]))
  }

  /** A reconciler's own rotation of a row that is still as claimed leaves it so. */
  lemma OwnRotationKeeps(w: World, pid: nat)
    requires Inv(w) && AtStage(w, pid, Rotating) && Head(w, pid).id in w.rows && w.rows[Head(w, pid).id] == Head(w, pid).row
    ensures Head(w, pid).id in Step(w, Rotate(pid, true)).rows
    ensures Step(w, Rotate(pid, true)).rows[Head(w, pid).id] == w.rows[Head(w, pid).id]
  {
    hide Sanitised;
    assert RowOk(Head(w, pid).id, w.rows[Head(w, pid).id]);
  }

  lemma RowsStay(w: World, a: Action, id: Id)
    requires Inv(w) && id in w.rows
    ensures id in Step(w, a).rows
  {
    hide Inv, Step;
    StepPreserves(w, a);
  }

  /** What stays queued in a pass was queued before, and its own writes concern the head only. */
  lemma OwnTouches(w: World, a: Action, pid: nat, p: Pass, p': Pass, s: Snapshot)
    requires pid in w.passes && p == w.passes[pid] && p.queue != [] && s in p.queue && Touches(w, a, s.id) && By(pid, a)
    requires forall i, j :: 0 <= i < j < |p.queue| ==> p.queue[i].id != p.queue[j].id
    requires pid in Step(w, a).passes && p' == Step(w, a).passes[pid] && s in p'.queue && p'.queue != []
    ensures a == Rotate(pid, true) && AtStage(w, pid, Rotating) && Head(w, pid) == s
  {
    hide Claimable, Decide, SaysDeleted, UpdateStatus, ReleaseRow, DeletionRequested, Expired;
  }

  lemma StepExplained(actions: seq<Action>, a: Action, w: World, pid: nat, i: nat)
    requires w == Run(EMPTY, actions) && Inv(w) && AllTraced(actions, w)
    requires pid in Step(w, a).passes && i < |Step(w, a).passes[pid].queue|
    ensures Explained(actions + [a], Step(w, a), pid, Step(w, a).passes[pid], Step(w, a).passes[pid].queue[i])
  {
    hide Run, Step, Decide, Claimable, Inv, Touches, By;
    var p' := Step(w, a).passes[pid];
    var s := p'.queue[i];
    StepMovesPass(w, a, pid);
    if pid in w.passes && w.passes[pid].queue != [] && s in w.passes[pid].queue && p'.claimed == w.passes[pid].claimed {
      StillExplained(actions, a, w, pid, s);
    } else {
      assert a.Claim? && s == Snapshot(a.ids[i], w.rows[a.ids[i]]);
      ClaimTouchesNothing(w, a, s.id);
    }
  }

  lemma ClaimTouchesNothing(w: World, a: Action, id: Id)
    requires a.Claim? && id in w.rows
    ensures id in Step(w, a).rows && Step(w, a).rows[id] == w.rows[id]
  {
    hide Step;
    UntouchedRow(w, a, id);
  }

  lemma StillExplained(actions: seq<Action>, a: Action, w: World, pid: nat, s: Snapshot)
    requires w == Run(EMPTY, actions) && Inv(w) && AllTraced(actions, w)
    requires pid in w.passes && w.passes[pid].queue != [] && s in w.passes[pid].queue
    requires pid in Step(w, a).passes && s in Step(w, a).passes[pid].queue
    requires Step(w, a).passes[pid].claimed == w.passes[pid].claimed
    ensures Explained(actions + [a], Step(w, a), pid, Step(w, a).passes[pid], s)
  {
    hide Run, Step, Decide, Inv, Touches, By, Before, ForeignSince;
    var p := w.passes[pid];
    assert Explained(actions, w, pid, p, s) by {
      var i :| 0 <= i < |p.queue| && p.queue[i] == s;
    }
    RowsStay(w, a, s.id);
    if ForeignSince(actions, p.claimed, s.id, pid) {
      ForeignStays(actions, a, p.claimed, s.id, pid);
    } else if !Touches(w, a, s.id) {
      UntouchedRow(w, a, s.id);
    } else if By(pid, a) {
      OwnTouches(w, a, pid, p, Step(w, a).passes[pid], s);
      OwnRotationKeeps(w, pid);
    } else {
      ForeignNow(actions, a, p.claimed, s.id, pid);
    }
  }

  lemma {:induction false} RunsAreTraced(actions: seq<Action>)
    ensures AllTraced(actions, Run(EMPTY, actions))
    decreases |actions|
  {
    if actions != [] {
      var init, a := actions[..|actions| - 1], actions[|actions| - 1];
      var w := Run(EMPTY, init);
      hide Step, Traced, Explained, Inv;
      RunsAreTraced(init);
      assert init + [a] == actions;
      assert Inv(EMPTY) by { EmptyIsSound(); }
      RunPreserves(EMPTY, init);
      CountsSteps(w, a);
      forall pid | pid in Step(w, a).passes ensures Traced(actions, pid, Step(w, a).passes[pid]) {
        StepTraced(init, a, w, pid);
      }
      forall pid, i | pid in Step(w, a).passes && 0 <= i < |Step(w, a).passes[pid].queue|
        ensures Explained(actions, Step(w, a), pid, Step(w, a).passes[pid], Step(w, a).passes[pid].queue[i])
      {
        StepExplained(init, a, w, pid, i);
      }
    }
  }

  lemma EmptyIsSound()
    ensures Inv(EMPTY)
  {
  }

  // ---------------------------------------------------------------- turning a phase back

  /** A question whose answer makes the reconciler write its snapshot back: an outage, or a report it refuses. */
  predicate WritesBack(s: Snapshot, report: Result<Value, Failure>) {
    var answer := Validated(s.id, report);
    answer.Err? && !(answer.error.ProviderStatus? && Unavailable(answer.error.code))
  }

  /** The next write of this pass puts the claimed phase back: its rotation, or its write after such an answer. */
  predicate AboutToWriteBack(actions: seq<Action>, w: World, pid: nat) {
    && Busy(w, pid)
    && (w.passes[pid].stage == Rotating
        || (w.passes[pid].stage.Writing? && w.passes[pid].asked < |actions| && actions[w.passes[pid].asked].Ask?
            && WritesBack(Head(w, pid), actions[w.passes[pid].asked].report)))
  }

  function NextWrite(w: World, pid: nat): Action
    requires Busy(w, pid)
  {
    if w.passes[pid].stage == Rotating then Rotate(pid, true) else Write(pid, true)
  }

  lemma WriteBackPhase(s: Snapshot, report: Result<Value, Failure>, verifiedAt: string)
    requires WritesBack(s, report)
    ensures Decide(s, report, verifiedAt).Writing? && Decide(s, report, verifiedAt).phase == s.row.phase
  {
    hide Validated, With;
  }

  lemma NextWriteSets(w: World, pid: nat, phase: string)
    requires Inv(w) && Busy(w, pid) && Head(w, pid).id in w.rows
    requires if w.passes[pid].stage == Rotating then phase == Head(w, pid).row.phase
             else w.passes[pid].stage.Writing? && phase == w.passes[pid].stage.phase
    ensures var id := Head(w, pid).id; var row := w.rows[id]; var w' := Step(w, NextWrite(w, pid));
            && id in w'.rows && w'.rows[id].deleteRequested == row.deleteRequested && w'.rows[id].deletedAt == row.deletedAt
            && (w'.rows[id].phase == row.phase <==> row.deleteRequested || phase == row.phase)
  {
    hide Sanitised;
    assert RowOk(Head(w, pid).id, w.rows[Head(w, pid).id]);
  }

  /**
  In every run, a rotation or the write after an outage or a refused report leaves deletion alone, and
  changes the phase exactly when no deletion is requested and the row's phase is not the one it had
  at this pass's claim; and then another party wrote the row in between.
  */
  lemma PhaseTurnsBackExactly(actions: seq<Action>, pid: nat)
    requires AboutToWriteBack(actions, Run(EMPTY, actions), pid)
    ensures var w := Run(EMPTY, actions);
            var id, k := Head(w, pid).id, w.passes[pid].claimed;
            && k < |actions| && actions[k].Claim? && actions[k].pid == pid
            && id in w.rows && id in Before(actions, k).rows
            && var row, later := w.rows[id], Step(w, NextWrite(w, pid)).rows;
               && id in later && later[id].deleteRequested == row.deleteRequested && later[id].deletedAt == row.deletedAt
               && (later[id].phase != row.phase <==>
                     !row.deleteRequested && Before(actions, k).rows[id].phase != row.phase)
               && (later[id].phase != row.phase ==> ForeignSince(actions, k, id, pid))
  {
    hide Run, Step, Decide, Inv, WritesBack, ForeignSince;
    RunsAreTraced(actions);
    EmptyIsSound();
    RunPreserves(EMPTY, actions);
    var w := Run(EMPTY, actions);
    var p, s := w.passes[pid], Head(w, pid);
    assert Traced(actions, pid, p) && Explained(actions, w, pid, p, p.queue[0]);
    if p.stage != Rotating {
      WriteBackPhase(s, actions[p.asked].report, actions[p.asked].verifiedAt);
    }
    NextWriteSets(w, pid, s.row.phase);
  }

  /** So while nobody else writes the row between its claim and such a write, phase and deletion stay. */
  lemma LoneWritesKeepPhase(actions: seq<Action>, pid: nat)
    requires AboutToWriteBack(actions, Run(EMPTY, actions), pid)
    requires var w := Run(EMPTY, actions);
             forall j: nat :: w.passes[pid].claimed < j ==> !ForeignAt(actions, j, Head(w, pid).id, pid)
    ensures var w := Run(EMPTY, actions);
            var id := Head(w, pid).id;
            var later := Step(w, NextWrite(w, pid)).rows;
            && id in w.rows && id in later && later[id].phase == w.rows[id].phase
            && later[id].deleteRequested == w.rows[id].deleteRequested && later[id].deletedAt == w.rows[id].deletedAt
  {
    hide Run, Step, AboutToWriteBack, Touches, By;
    PhaseTurnsBackExactly(actions, pid);
  }

  /** Any other write puts what the provider reported, or an error; it changes the phase exactly when that is new. */
  lemma AnswersSetPhaseExactly(actions: seq<Action>, pid: nat)
    requires var w := Run(EMPTY, actions); Busy(w, pid) && w.passes[pid].stage.Writing?
    ensures var w := Run(EMPTY, actions);
            var id, k, phase := Head(w, pid).id, w.passes[pid].asked, w.passes[pid].stage.phase;
            && k < |actions| && actions[k].Ask? && actions[k].pid == pid && id in w.rows
            && w.passes[pid].stage == Decide(Head(w, pid), actions[k].report, actions[k].verifiedAt)
            && var row, later := w.rows[id], Step(w, Write(pid, true)).rows;
               && id in later && later[id].deleteRequested == row.deleteRequested && later[id].deletedAt == row.deletedAt
               && (later[id].phase != row.phase <==> !row.deleteRequested && phase != row.phase)
  {
    hide Run, Step, Decide, Inv;
    var w := Run(EMPTY, actions);
    HeadKnown(actions, pid);
    WriteSets(w, pid);
  }

  lemma WriteSets(w: World, pid: nat)
    requires Inv(w) && Busy(w, pid) && Head(w, pid).id in w.rows && w.passes[pid].stage.Writing?
    ensures var id := Head(w, pid).id; var row := w.rows[id]; var later := Step(w, Write(pid, true)).rows;
            && id in later && later[id].deleteRequested == row.deleteRequested && later[id].deletedAt == row.deletedAt
            && (later[id].phase != row.phase <==> !row.deleteRequested && w.passes[pid].stage.phase != row.phase)
  {
    hide Inv, Step;
    NextWriteSets(w, pid, w.passes[pid].stage.phase);
  }

  lemma HeadKnown(actions: seq<Action>, pid: nat)
    requires var w := Run(EMPTY, actions); Busy(w, pid) && w.passes[pid].stage.Writing?
    ensures var w := Run(EMPTY, actions);
            var k := w.passes[pid].asked;
            && Inv(w) && Head(w, pid).id in w.rows
            && k < |actions| && actions[k].Ask? && actions[k].pid == pid
            && w.passes[pid].stage == Decide(Head(w, pid), actions[k].report, actions[k].verifiedAt)
  {
    hide Run, Decide, Inv, ForeignSince, Before;
    RunsAreTraced(actions);
    EmptyIsSound();
    RunPreserves(EMPTY, actions);
    var w := Run(EMPTY, actions);
    var p := w.passes[pid];
    assert Traced(actions, pid, p) && Explained(actions, w, pid, p, p.queue[0]);
  }

  // ---------------------------------------------------------------- two runs that do

  const CLAIMED := Row("pending", NO_STATUS, false, None)

  /** This reconciler works on one pending backup, as claimed. */
  predicate Works(w: World, pid: nat, stage: Stage) {
    pid in w.passes && w.passes[pid].queue == [Snapshot("b", CLAIMED)] && w.passes[pid].stage == stage
  }

  predicate RowIs(w: World, phase: string) {
    "b" in w.rows && w.rows["b"].phase == phase && !w.rows["b"].deleteRequested && w.rows["b"].deletedAt == None
  }

  function TwoClaims(): seq<Action> {
    [Request("b"), Claim(0, ["b"], 0), Claim(1, ["b"], 0)]
  }

  const READY: Result<Value, Failure> := Ok(Obj(map["id" := Str("b"), "phase" := Str("ready")]))

  /** Reconciler 0 learns that the backup is ready. */
  function Learns(verifiedAt: string): seq<Action> {
    [Rotate(0, true), Ask(0, READY, verifiedAt), Write(0, true)]
  }

  lemma RunThree(w: World, a: Action, b: Action, c: Action)
    ensures Run(w, [a, b, c]) == Step(Step(Step(w, a), b), c)
  {
    hide Step;
    assert [a, b, c][..2] == [a, b] && [a, b][..1] == [a] && [a][..0] == [];
    assert Run(w, [a]) == Step(w, a);
    assert Run(w, [a, b]) == Step(Step(w, a), b);
  }

  lemma BothClaim()
    ensures var w := Run(EMPTY, TwoClaims()); RowIs(w, "pending") && Works(w, 0, Rotating) && Works(w, 1, Rotating)
  {
    RunThree(EMPTY, Request("b"), Claim(0, ["b"], 0), Claim(1, ["b"], 0));
    hide Run;
    var one := Step(EMPTY, Request("b"));
    assert one.rows == map["b" := CLAIMED] && one.passes == map[];
    hide Step;
    Claims(one, 0, 1);
    Claims(Step(one, Claim(0, ["b"], 0)), 1, 0);
  }

  lemma Claims(w: World, pid: nat, other: nat)
    requires w.rows == map["b" := CLAIMED] && !Busy(w, pid) && pid != other
    ensures var w' := Step(w, Claim(pid, ["b"], 0));
            && w'.rows == w.rows && Works(w', pid, Rotating)
            && (other in w'.passes <==> other in w.passes) && (other in w.passes ==> w'.passes[other] == w.passes[other])
  {
    hide Decide;
    assert Claimable(w, ["b"], 0);
  }

  lemma Rotates(w: World, pid: nat, other: nat, stage: Stage)
    requires RowIs(w, "pending") && Works(w, pid, Rotating) && Works(w, other, stage) && pid != other
    ensures var w' := Step(w, Rotate(pid, true)); RowIs(w', "pending") && Works(w', pid, Asking) && Works(w', other, stage)
  {
    hide Decide;
  }

  lemma Asks(w: World, pid: nat, other: nat, stage: Stage, report: Result<Value, Failure>, verifiedAt: string)
    requires RowIs(w, "pending") && Works(w, pid, Asking) && Works(w, other, stage) && pid != other
    ensures var w' := Step(w, Ask(pid, report, verifiedAt));
            RowIs(w', "pending") && Works(w', pid, Decide(Snapshot("b", CLAIMED), report, verifiedAt)) && Works(w', other, stage)
  {
    hide Decide;
  }

  lemma Writes(w: World, pid: nat, other: nat, decided: Stage, stage: Stage)
    requires "b" in w.rows && !w.rows["b"].deleteRequested && w.rows["b"].deletedAt == None
    requires Works(w, pid, decided) && decided.Writing? && pid != other
    ensures RowIs(Step(w, Write(pid, true)), decided.phase)
    ensures Works(w, other, stage) ==> Works(Step(w, Write(pid, true)), other, stage)
  {
    hide Decide;
  }

  lemma ReadyDecision(verifiedAt: string)
    ensures Decide(Snapshot("b", CLAIMED), READY, verifiedAt).Writing?
    ensures Decide(Snapshot("b", CLAIMED), READY, verifiedAt).phase == "ready"
  {
    hide ValidatedVerification;
  }

  /** From two claims on, whatever stage the other is in, reconciler 0 makes the backup ready. */
  lemma LearnsReady(w: World, stage: Stage, verifiedAt: string)
    requires RowIs(w, "pending") && Works(w, 0, Rotating) && Works(w, 1, stage)
    ensures var done := Run(w, Learns(verifiedAt)); RowIs(done, "ready") && Works(done, 1, stage)
  {
    hide Run, Step, Decide, RowIs, Works;
    var one := Step(w, Rotate(0, true));
    var two := Step(one, Ask(0, READY, verifiedAt));
    Rotates(w, 0, 1, stage);
    Asks(one, 0, 1, stage, READY, verifiedAt);
    ReadyDecision(verifiedAt);
    assert RowIs(two, "pending");
    NotDeleted(two, "pending");
    Writes(two, 0, 1, Decide(Snapshot("b", CLAIMED), READY, verifiedAt), stage);
    RunThree(w, Rotate(0, true), Ask(0, READY, verifiedAt), Write(0, true));
  }

  lemma NotDeleted(w: World, phase: string)
    requires RowIs(w, phase)
    ensures "b" in w.rows && !w.rows["b"].deleteRequested && w.rows["b"].deletedAt == None
  {
  }

  /** A stale rotation: the second reconciler turns the ready backup back to pending. */
  lemma StaleRotationReverts(verifiedAt: string)
    ensures var done := Run(Run(EMPTY, TwoClaims()), Learns(verifiedAt));
            RowIs(done, "ready") && RowIs(Step(done, Rotate(1, true)), "pending")
  {
    hide Run, Decide;
    BothClaim();
    LearnsReady(Run(EMPTY, TwoClaims()), Rotating, verifiedAt);
    RotationReverts(Run(Run(EMPTY, TwoClaims()), Learns(verifiedAt)));
  }

  lemma RotationReverts(w: World)
    requires RowIs(w, "ready") && Works(w, 1, Rotating)
    ensures RowIs(Step(w, Rotate(1, true)), "pending")
  {
    hide Decide;
  }

  /** A stale outage: it rotated and asked in vain before the first one learned, and writes its snapshot back after. */
  lemma StaleOutageReverts(verifiedAt: string)
    ensures var asked := Step(Step(Run(EMPTY, TwoClaims()), Rotate(1, true)), Ask(1, Err(Unreachable), verifiedAt));
            var done := Run(asked, Learns(verifiedAt));
            RowIs(done, "ready") && RowIs(Step(done, Write(1, true)), "pending")
  {
    hide Run, Step, Decide, RowIs, Works;
    var w := Run(EMPTY, TwoClaims());
    var decided := Decide(Snapshot("b", CLAIMED), Err(Unreachable), verifiedAt);
    BothClaim();
    Rotates(w, 1, 0, Rotating);
    Asks(Step(w, Rotate(1, true)), 1, 0, Rotating, Err(Unreachable), verifiedAt);
    OutageDecides(verifiedAt);
    var asked := Step(Step(w, Rotate(1, true)), Ask(1, Err(Unreachable), verifiedAt));
    LearnsReady(asked, decided, verifiedAt);
    NotDeleted(Run(asked, Learns(verifiedAt)), "ready");
    Writes(Run(asked, Learns(verifiedAt)), 1, 0, decided, Rotating);
  }

  lemma OutageDecides(verifiedAt: string)
    ensures Decide(Snapshot("b", CLAIMED), Err(Unreachable), verifiedAt).Writing?
    ensures Decide(Snapshot("b", CLAIMED), Err(Unreachable), verifiedAt).phase == "pending"
  {
  }
}
