/**
What the outcomes of the calls made for a credential say about it. For every run and every moment of it,
they determine exactly whether the credential's row and its robot are there.
*/
module RegistryOutcomes {
  import opened Outcomes
  import opened RegistryCredentials

  /** How the calls of the create ended, as far as made, and whether a delete's calls took effect. */
  datatype History = History(
    made: Option<Call>,
    activated: Option<Call>,
    undone: Option<Call>,
    cancelled: Option<Call>,
    removed: bool,
    dropped: bool)

  const NEW := History(None, None, None, None, false, false)

  predicate Landed(call: Option<Call>) {
    call.Some? && Applied(call.value)
  }

  predicate Deleting(w: World, pid: nat, id: Id, stage: DeleteStage) {
    pid in w.deletes && w.deletes[pid].id == id && w.deletes[pid].stage == stage
  }

  predicate CreateAt(w: World, id: Id, stage: CreateStage) {
    id in w.creates && w.creates[id].stage == stage
  }

  function HistoryAfter(w: World, h: History, a: Action, id: Id): History {
    match a
    case CreateRobot(x, robot, call) =>
      if x == id && CreateAt(w, id, Creating) && robot !in w.issued then h.(made := Some(call)) else h
    case Activate(x, call) => if x == id && CreateAt(w, id, Holding) then h.(activated := Some(call)) else h
    case Undo(x, call) => if x == id && CreateAt(w, id, Undoing) then h.(undone := Some(call)) else h
    case Cancel(x, call) => if x == id && CreateAt(w, id, Cancelling) then h.(cancelled := Some(call)) else h
    case Remove(pid, call) => if Deleting(w, pid, id, Removing) && Applied(call) then h.(removed := true) else h
    case Drop(pid, call) => if Deleting(w, pid, id, Dropping) && Applied(call) then h.(dropped := true) else h
    case _ => h
  }

  /** Read off the run. */
  function HistoryOf(actions: seq<Action>, id: Id): History
    decreases |actions|
  {
    if actions == [] then NEW
    else
      var before := actions[..|actions| - 1];
      HistoryAfter(Run(EMPTY, before), HistoryOf(before, id), actions[|actions| - 1], id)
  }

  /** The row is there: reserved, and neither cancelled before it was activated nor dropped by a delete. */
  predicate RowStands(h: History) {
    !(Landed(h.cancelled) && !Landed(h.activated)) && !h.dropped
  }

  /** The robot is there: made, and removed neither by the create's compensation nor by a delete. */
  predicate RobotLives(h: History) {
    Landed(h.made) && !Landed(h.undone) && !h.removed
  }

  predicate Issued(w: World, robot: Robot, id: Id) {
    robot in w.issued && w.issued[robot] == id
  }

  /** Which calls the create can have made at its stage. */
  predicate StageTells(c: Create, h: History) {
    match c.stage
    case Creating => h == NEW
    case Holding => h == NEW.(made := Some(Answered))
    case Activated => h.made == Some(Answered) && h.activated == Some(Answered) && h.undone == None && h.cancelled == None
    case Returned => h.made == Some(Answered) && h.activated == Some(Answered) && h.undone == None && h.cancelled == None
    case Undoing =>
      h.made == Some(Answered) && h.activated.Some? && h.activated.value.Failed? && h.undone == None && h.cancelled == None
    case Cancelling => h.made.Some? && h.cancelled == None
    case Abandoned => true
  }

  predicate RowStory(w: World, h: History, id: Id) {
    && (id !in w.creates ==> h == NEW)
    && (id in w.creates ==>
          && StageTells(w.creates[id], h)
          && (id in w.rows <==> RowStands(h))
          && (id in w.rows ==> (w.rows[id].active <==> Landed(h.activated))))
    && (Landed(h.activated) <==> id in w.activated)
    && (h.removed || h.dropped ==> Landed(h.activated))
    && (Landed(h.activated) ==> h.made == Some(Answered))
    && (h.undone.Some? ==> h.made == Some(Answered) && h.activated.Some?)
  }

  ghost predicate RobotStory(w: World, h: History, id: Id) {
    && (Landed(h.made) <==> exists robot :: Issued(w, robot, id))
    && (forall robot :: Issued(w, robot, id) ==> (robot in w.robots <==> RobotLives(h)))
    && (forall robot, other :: Issued(w, robot, id) && Issued(w, other, id) ==> robot == other)
  }

  ghost predicate StoryOk(w: World, h: History, id: Id) {
    RowStory(w, h, id) && RobotStory(w, h, id)
  }

  lemma SameRobotStory(w: World, w': World, h: History, h': History, id: Id)
    requires RobotStory(w, h, id) && w'.robots == w.robots && w'.issued == w.issued
    requires Landed(h.made) == Landed(h'.made) && RobotLives(h) == RobotLives(h')
    ensures RobotStory(w', h', id)
  {
    hide Landed, RobotLives;
    assert forall r :: Issued(w', r, id) <==> Issued(w, r, id);
  }

  lemma OthersStory(w: World, w': World, h: History, k: Id, id: Id)
    requires StoryOk(w, h, id) && OnlyAt(w, w', k) && k != id
    ensures StoryOk(w', h, id)
  {
    hide StageTells, RowStands, RobotLives;
    assert SameAt(w.rows, w'.rows, id) && SameAt(w.creates, w'.creates, id) && SameAt(w.activated, w'.activated, id);
    assert forall r :: Issued(w, r, id) <==> Issued(w', r, id) by {
      assert RobotsOnlyAt(w, w', k);
      forall r | Issued(w', r, id) ensures Issued(w, r, id) { assert r in w.issued && w.issued[r] != k; }
    }
  }

  lemma ReserveStory(w: World, h: History, a: Action)
    requires a.Reserve? && CredentialOk(w, a.id) && StoryOk(w, h, a.id)
    ensures StoryOk(Step(w, a), HistoryAfter(w, h, a, a.id), a.id)
  {
    hide HasRoom, RobotStory, RobotOk, DeleteOk;
    SameRobotStory(w, Step(w, a), h, h, a.id);
  }

  lemma MakeStory(w: World, h: History, a: Action)
    requires a.CreateRobot? && NothingUnknown(w) && CredentialOk(w, a.id) && StoryOk(w, h, a.id)
    ensures StoryOk(Step(w, a), HistoryAfter(w, h, a, a.id), a.id)
  {
    var w', h' := Step(w, a), HistoryAfter(w, h, a, a.id);
    if CreateAt(w, a.id, Creating) && a.robot !in w.issued {
      assert forall r :: Issued(w', r, a.id) <==> Issued(w, r, a.id) || (Applied(a.creating) && r == a.robot);
      if Applied(a.creating) { assert Issued(w', a.robot, a.id); }
    }
  }

  lemma ActivateStory(w: World, h: History, a: Action)
    requires a.Activate? && CredentialOk(w, a.id) && StoryOk(w, h, a.id)
    ensures StoryOk(Step(w, a), HistoryAfter(w, h, a, a.id), a.id)
  {
    hide RobotStory, RobotOk, DeleteOk;
    SameRobotStory(w, Step(w, a), h, HistoryAfter(w, h, a, a.id), a.id);
  }

  lemma AnswerStory(w: World, h: History, a: Action)
    requires a.Answer? && CredentialOk(w, a.id) && StoryOk(w, h, a.id)
    ensures StoryOk(Step(w, a), HistoryAfter(w, h, a, a.id), a.id)
  {
    hide RobotStory, RobotOk, DeleteOk;
    SameRobotStory(w, Step(w, a), h, HistoryAfter(w, h, a, a.id), a.id);
  }

  lemma UndoStory(w: World, h: History, a: Action)
    requires a.Undo? && CredentialOk(w, a.id) && StoryOk(w, h, a.id)
    ensures StoryOk(Step(w, a), HistoryAfter(w, h, a, a.id), a.id)
  {
    var w' := Step(w, a);
    assert forall r :: Issued(w', r, a.id) <==> Issued(w, r, a.id);
    if CreateAt(w, a.id, Undoing) {
      assert Issued(w, w.creates[a.id].robot.value, a.id);
    }
  }

  lemma CancelStory(w: World, h: History, a: Action)
    requires a.Cancel? && CredentialOk(w, a.id) && StoryOk(w, h, a.id)
    ensures StoryOk(Step(w, a), HistoryAfter(w, h, a, a.id), a.id)
  {
    hide RobotStory, RobotOk, DeleteOk;
    SameRobotStory(w, Step(w, a), h, HistoryAfter(w, h, a, a.id), a.id);
  }

  lemma FindStory(w: World, h: History, a: Action)
    requires a.Find? && StoryOk(w, h, a.target)
    ensures StoryOk(Step(w, a), HistoryAfter(w, h, a, a.target), a.target)
  {
    hide RobotStory, StageTells, RowStands;
    SameRobotStory(w, Step(w, a), h, h, a.target);
  }

  lemma RemoveStory(w: World, h: History, a: Action, id: Id)
    requires a.Remove? && StoryOk(w, h, id) && Subject(w, a) == id
    requires a.pid in w.deletes ==> DeleteOk(w, a.pid) && ActivatedOk(w, id)
    ensures StoryOk(Step(w, a), HistoryAfter(w, h, a, id), id)
  {
    var w' := Step(w, a);
    assert forall r :: Issued(w', r, id) <==> Issued(w, r, id);
    if a.pid in w.deletes {
      assert Issued(w, w.deletes[a.pid].robot, id);
    }
  }

  lemma DropStory(w: World, h: History, a: Action, id: Id)
    requires a.Drop? && StoryOk(w, h, id) && Subject(w, a) == id
    requires a.pid in w.deletes ==> DeleteOk(w, a.pid) && ActivatedOk(w, id) && RowOk(w, id)
    ensures StoryOk(Step(w, a), HistoryAfter(w, h, a, id), id)
  {
    hide RobotStory;
    SameRobotStory(w, Step(w, a), h, HistoryAfter(w, h, a, id), id);
  }

  lemma OthersHistory(w: World, h: History, a: Action, id: Id)
    requires Subject(w, a) != id
    ensures HistoryAfter(w, h, a, id) == h
  {
  }

  lemma DeletesOk(w: World, id: Id)
    requires CredentialOk(w, id)
    ensures RowOk(w, id) && ActivatedOk(w, id)
    ensures forall pid :: pid in w.deletes && w.deletes[pid].id == id ==> DeleteOk(w, pid)
  {
  }

  lemma StepStory(w: World, h: History, a: Action, id: Id)
    requires Inv(w) && StoryOk(w, h, id)
    ensures StoryOk(Step(w, a), HistoryAfter(w, h, a, id), id)
  {
    hide StoryOk, Step, HistoryAfter, OnlyAt, CredentialOk, NothingUnknown, RowOk, ActivatedOk, DeleteOk;
    assert CredentialOk(w, id);
    if Subject(w, a) != id {
      StepTouchesOne(w, a);
      OthersStory(w, Step(w, a), h, Subject(w, a), id);
      OthersHistory(w, h, a, id);
    } else {
      match a {
        case Reserve(_, _, _, _, _) => ReserveStory(w, h, a);
        case CreateRobot(_, _, _) => MakeStory(w, h, a);
        case Activate(_, _) => ActivateStory(w, h, a);
        case Answer(_, _) => AnswerStory(w, h, a);
        case Undo(_, _) => UndoStory(w, h, a);
        case Cancel(_, _) => CancelStory(w, h, a);
        case Find(_, _, _) => FindStory(w, h, a);
        case Remove(_, _) =>
          DeletesOk(w, id);
          RemoveStory(w, h, a, id);
        case Drop(_, _) =>
          DeletesOk(w, id);
          DropStory(w, h, a, id);
      }
    }
  }

  lemma {:induction false} RunStory(actions: seq<Action>, id: Id)
    ensures StoryOk(Run(EMPTY, actions), HistoryOf(actions, id), id)
    decreases |actions|
  {
    if actions != [] {
      hide StoryOk, Step, HistoryAfter, Inv;
      var before, a := actions[..|actions| - 1], actions[|actions| - 1];
      RunStory(before, id);
      RunPreserves(before);
      StepStory(Run(EMPTY, before), HistoryOf(before, id), a, id);
    }
  }

  /**
  At every moment of every run the outcomes of the calls made so far decide: whether the row of a
  reserved credential is there, whether it is active, whether a robot was ever made for it, at most one,
  and whether that robot lives.
  */
  lemma OutcomesDecide(actions: seq<Action>, id: Id)
    requires id in Run(EMPTY, actions).creates
    ensures var w, h := Run(EMPTY, actions), HistoryOf(actions, id);
            && (id in w.rows <==> RowStands(h))
            && (id in w.rows ==> (w.rows[id].active <==> Landed(h.activated)))
            && (Landed(h.made) <==> exists robot :: Issued(w, robot, id))
            && (forall robot :: Issued(w, robot, id) ==> (robot in w.robots <==> RobotLives(h)))
            && (forall robot, other :: Issued(w, robot, id) && Issued(w, other, id) ==> robot == other)
  {
    hide Run, HistoryOf, StageTells, RowStands, RobotLives;
    RunStory(actions, id);
  }

  /** An active row with its live robot, or neither a row nor a live robot. */
  ghost predicate Whole(w: World, id: Id) {
    if id in w.rows then w.rows[id].active && w.rows[id].robot.Some? && w.rows[id].robot.value in w.robots
    else forall robot :: Issued(w, robot, id) ==> robot !in w.robots
  }

  /**
  So in every run, with any creates and deletes failing in any way, a credential is whole if and only if
  the outcomes of its calls are such: its row was activated and neither row nor robot was taken away,
  or row and robot both are gone, or were never there.
  */
  lemma WholeExactly(actions: seq<Action>, id: Id)
    requires id in Run(EMPTY, actions).creates
    ensures var h := HistoryOf(actions, id);
            Whole(Run(EMPTY, actions), id) <==>
            if RowStands(h) then Landed(h.activated) && RobotLives(h) else !RobotLives(h)
  {
    hide Run, HistoryOf, StageTells, RowStands;
    RunStory(actions, id);
    RunPreserves(actions);
    var w := Run(EMPTY, actions);
    assert CredentialOk(w, id);
    if id in w.rows && w.rows[id].active {
      assert Issued(w, w.activated[id], id);
    }
  }
}
