/**
Registry push credentials. A create reserves a row, creates a robot account at the registry, then
activates the row; when a later step fails it compensates. A delete removes the robot first and the
row after it. Any number of handlers interleave, may stop anywhere, and every call may fail with or
without having taken effect.

A create is named by the id of its reservation, which also names its robot. `issued`, `activated`
and `removedBy` are history.
*/
module RegistryCredentials {
  import opened Basics
  import opened Outcomes

  type Id = nat
  type Robot = int

  datatype Row = Row(org: string, active: bool, robot: Option<Robot>)

  datatype CreateStage = Creating | Holding | Activated | Undoing | Cancelling | Returned | Abandoned

  /** `lost`: a call took effect though its caller saw an error, or a compensation had no effect. */
  datatype Create = Create(org: string, stage: CreateStage, robot: Option<Robot>, lost: bool)

  datatype DeleteStage = Removing | Dropping | Deleted | GivenUp

  datatype Delete = Delete(org: string, id: Id, robot: Robot, stage: DeleteStage, lost: bool)

  datatype World = World(
    rows: map<Id, Row>,
    robots: set<Robot>,
    creates: map<Id, Create>,
    deletes: map<nat, Delete>,
    issued: map<Robot, Id>,
    activated: map<Id, Robot>,
    removedBy: map<Robot, nat>)

  /** A call that is answered took effect; one that fails may have. */
  datatype Call = Answered | Failed(applied: bool)

  predicate Applied(call: Call) { call.Answered? || call.applied }

  /** The limit across the accounts of the cloud organization an organization belongs to, once that is enabled. */
  datatype Cloud = Disabled | NoMember | Limited(accounts: set<string>, most: nat)

  datatype Action =
    | Reserve(id: Id, org: string, limit: nat, cloud: Cloud, reserving: Call)
    | CreateRobot(id: Id, robot: Robot, creating: Call)
    | Activate(id: Id, activating: Call)
    | Answer(id: Id, built: bool)
    | Undo(id: Id, undoing: Call)
    | Cancel(id: Id, cancelling: Call)
    | Find(pid: nat, org: string, target: Id)
    | Remove(pid: nat, removing: Call)
    | Drop(pid: nat, dropping: Call)

  const EMPTY := World(map[], {}, map[], map[], map[], map[], map[])

  /** The organizations' credentials that count towards a limit: provisioning and active ones. */
  function Held(w: World, orgs: set<string>): set<Id> {
    set id | id in w.rows && w.rows[id].org in orgs
  }

  predicate HasRoom(w: World, org: string, limit: nat, cloud: Cloud) {
    |Held(w, {org})| < limit && !cloud.NoMember? && (cloud.Limited? ==> |Held(w, cloud.accounts)| < cloud.most)
  }

  function Becoming(w: World, id: Id, c: Create): World {
    w.(creates := w.creates[id := c])
  }

  /** Identifiers are generated afresh; a refused or failed reservation ends the request. */
  function ReserveStep(w: World, id: Id, org: string, limit: nat, cloud: Cloud, call: Call): World {
    if id in w.creates || !HasRoom(w, org, limit, cloud) || !Applied(call) then w
    else
      Becoming(w.(rows := w.rows[id := Row(org, false, None)]), id,
               if call.Answered? then Create(org, Creating, None, false) else Create(org, Abandoned, None, true))
  }

  function CreateRobotStep(w: World, id: Id, robot: Robot, call: Call): World {
    if id !in w.creates || w.creates[id].stage != Creating || robot in w.issued then w
    else
      var c := w.creates[id];
      var made := if Applied(call) then w.(robots := w.robots + {robot}, issued := w.issued[robot := id]) else w;
      Becoming(made, id,
               if call.Answered? then c.(stage := Holding, robot := Some(robot))
               else c.(stage := Cancelling, lost := call.applied))
  }

  predicate Provisioning(w: World, id: Id, org: string) {
    id in w.rows && w.rows[id].org == org && !w.rows[id].active
  }

  predicate ActiveRow(w: World, id: Id, org: string) {
    id in w.rows && w.rows[id].org == org && w.rows[id].active
  }

  function ActivateStep(w: World, id: Id, call: Call): World {
    if id !in w.creates || w.creates[id].stage != Holding || w.creates[id].robot.None? then w
    else
      var c := w.creates[id];
      var robot := c.robot.value;
      if Applied(call) && Provisioning(w, id, c.org) then
        var stored := w.(rows := w.rows[id := Row(c.org, true, Some(robot))], activated := w.activated[id := robot]);
        Becoming(stored, id, if call.Answered? then c.(stage := Activated) else c.(stage := Undoing, lost := true))
      else Becoming(w, id, c.(stage := Undoing))
  }

  /** Building the response may still fail; then the secret is not shown. */
  function AnswerStep(w: World, id: Id, built: bool): World {
    if id !in w.creates || w.creates[id].stage != Activated then w
    else Becoming(w, id, w.creates[id].(stage := if built then Returned else Abandoned))
  }

  function UndoStep(w: World, id: Id, call: Call): World {
    if id !in w.creates || w.creates[id].stage != Undoing || w.creates[id].robot.None? then w
    else
      var c := w.creates[id];
      var robot := c.robot.value;
      var undone := if Applied(call) then w.(robots := w.robots - {robot}) else w;
      Becoming(undone, id, c.(stage := Cancelling, lost := c.lost || robot in undone.robots))
  }

  function CancelStep(w: World, id: Id, call: Call): World {
    if id !in w.creates || w.creates[id].stage != Cancelling then w
    else
      var c := w.creates[id];
      var dropped := if Applied(call) && Provisioning(w, id, c.org) then w.(rows := w.rows - {id}) else w;
      Becoming(dropped, id, c.(stage := Abandoned, lost := c.lost || Provisioning(dropped, id, c.org)))
  }

  /** Only an active row of the caller's organization can be deleted. */
  function FindStep(w: World, pid: nat, org: string, id: Id): World {
    if pid in w.deletes || !ActiveRow(w, id, org) || w.rows[id].robot.None? then w
    else w.(deletes := w.deletes[pid := Delete(org, id, w.rows[id].robot.value, Removing, false)])
  }

  /** A robot that is already gone counts as removed. */
  function RemoveStep(w: World, pid: nat, call: Call): World {
    if pid !in w.deletes || w.deletes[pid].stage != Removing then w
    else
      var d := w.deletes[pid];
      var removed :=
        if Applied(call) && d.robot in w.robots
        then w.(robots := w.robots - {d.robot}, removedBy := w.removedBy[d.robot := pid])
        else w;
      removed.(deletes := w.deletes[pid :=
        if call.Answered? then d.(stage := Dropping) else d.(stage := GivenUp, lost := removed.robots != w.robots)])
  }

  function DropStep(w: World, pid: nat, call: Call): World {
    if pid !in w.deletes || w.deletes[pid].stage != Dropping then w
    else
      var d := w.deletes[pid];
      var found := ActiveRow(w, d.id, d.org);
      var dropped := if Applied(call) && found then w.(rows := w.rows - {d.id}) else w;
      dropped.(deletes := w.deletes[pid :=
        d.(stage := if call.Answered? && found then Deleted else GivenUp, lost := ActiveRow(dropped, d.id, d.org))])
  }

  function Step(w: World, a: Action): World {
    match a
    case Reserve(id, org, limit, cloud, call) => ReserveStep(w, id, org, limit, cloud, call)
    case CreateRobot(id, robot, call) => CreateRobotStep(w, id, robot, call)
    case Activate(id, call) => ActivateStep(w, id, call)
    case Answer(id, built) => AnswerStep(w, id, built)
    case Undo(id, call) => UndoStep(w, id, call)
    case Cancel(id, call) => CancelStep(w, id, call)
    case Find(pid, org, id) => FindStep(w, pid, org, id)
    case Remove(pid, call) => RemoveStep(w, pid, call)
    case Drop(pid, call) => DropStep(w, pid, call)
  }

  function Run(w: World, actions: seq<Action>): World
    decreases |actions|
  {
    if actions == [] then w else Step(Run(w, actions[..|actions| - 1]), actions[|actions| - 1])
  }

  // ---------------------------------------------------------------- invariant

  /** Some delete handler took this robot away and has not finished with its row, or never will. */
  predicate TakenAway(w: World, robot: Robot) {
    && robot in w.removedBy && w.removedBy[robot] in w.deletes
    && w.deletes[w.removedBy[robot]].robot == robot
    && (w.deletes[w.removedBy[robot]].stage == Dropping || w.deletes[w.removedBy[robot]].lost)
  }

  predicate InFlight(c: Create) {
    c.stage == Creating || c.stage == Holding || c.stage == Undoing || c.stage == Cancelling
  }

  predicate RowOk(w: World, id: Id) {
    id in w.rows ==>
      && id in w.creates && w.rows[id].org == w.creates[id].org
      && (w.rows[id].active <==> id in w.activated)
      && (w.rows[id].active ==>
            && w.rows[id].robot == Some(w.activated[id])
            && (w.activated[id] in w.robots || w.creates[id].lost || TakenAway(w, w.activated[id])))
      && (!w.rows[id].active ==> w.rows[id].robot == None && (InFlight(w.creates[id]) || w.creates[id].lost))
  }

  predicate RobotOk(w: World, robot: Robot) {
    robot in w.robots ==>
      && robot in w.issued && w.issued[robot] in w.creates && robot !in w.removedBy
      && var id := w.issued[robot];
         || (w.creates[id].robot == Some(robot) && (w.creates[id].stage == Holding || w.creates[id].stage == Undoing))
         || w.creates[id].lost
         || (id in w.rows && w.rows[id].robot == Some(robot))
  }

  predicate CreateOk(w: World, id: Id) {
    id in w.creates ==>
      var c := w.creates[id];
      && (c.robot.Some? ==> c.robot.value in w.issued && w.issued[c.robot.value] == id)
      && (c.stage == Creating ==> c.robot == None && !c.lost && Provisioning(w, id, c.org))
      && (c.stage == Holding ==> c.robot.Some? && !c.lost && c.robot.value in w.robots && Provisioning(w, id, c.org))
      && (c.stage == Undoing ==> c.robot.Some? && (!c.lost ==> id !in w.activated))
      && (c.stage == Activated || c.stage == Returned ==>
            c.robot.Some? && id in w.activated && w.activated[id] == c.robot.value && !c.lost)
  }

  predicate ActivatedOk(w: World, id: Id) {
    id in w.activated ==>
      && id in w.creates && w.activated[id] in w.issued && w.issued[w.activated[id]] == id
      && w.creates[id].robot == Some(w.activated[id])
      && (id in w.rows ==> w.rows[id].active)
      && (id !in w.rows ==> w.activated[id] !in w.robots)
  }

  predicate DeleteOk(w: World, pid: nat) {
    pid in w.deletes ==>
      var d := w.deletes[pid];
      && d.id in w.activated && w.activated[d.id] == d.robot
      && d.id in w.creates && w.creates[d.id].org == d.org
      && (d.stage == Removing ==> !d.lost)
      && (d.stage == Dropping || d.stage == Deleted ==> d.robot !in w.robots)
      && (d.stage == Deleted ==> d.id !in w.rows)
  }

  /** The handlers, the row and the robots of one credential. */
  ghost predicate CredentialOk(w: World, id: Id) {
    && RowOk(w, id) && CreateOk(w, id) && ActivatedOk(w, id)
    && (forall robot :: robot in w.issued && w.issued[robot] == id ==> RobotOk(w, robot))
    && (forall pid :: pid in w.deletes && w.deletes[pid].id == id ==> DeleteOk(w, pid))
  }

  predicate NothingUnknown(w: World) {
    w.robots <= w.issued.Keys && w.removedBy.Keys <= w.issued.Keys
  }

  ghost predicate Inv(w: World) {
    NothingUnknown(w) && forall id :: CredentialOk(w, id)
  }

  predicate SameAt<K, V(==)>(m: map<K, V>, m': map<K, V>, k: K) {
    (k in m <==> k in m') && (k in m ==> m[k] == m'[k])
  }

  ghost predicate RobotsOnlyAt(w: World, w': World, id: Id) {
    && (forall r :: r in w.issued && w.issued[r] != id ==>
          SameAt(w.issued, w'.issued, r) && (r in w.robots <==> r in w'.robots) && SameAt(w.removedBy, w'.removedBy, r))
    && (forall r :: r in w'.issued && w'.issued[r] != id ==> r in w.issued && w.issued[r] != id)
  }

  /** Nothing of any other credential changed. */
  ghost predicate OnlyAt(w: World, w': World, id: Id) {
    && (forall k :: k != id ==>
          SameAt(w.rows, w'.rows, k) && SameAt(w.creates, w'.creates, k) && SameAt(w.activated, w'.activated, k))
    && RobotsOnlyAt(w, w', id)
    && (forall p :: p in w.deletes && w.deletes[p].id != id ==> SameAt(w.deletes, w'.deletes, p))
    && (forall p :: p in w'.deletes && w'.deletes[p].id != id ==> p in w.deletes && w.deletes[p].id != id)
  }

  lemma OthersKept(w: World, w': World, id: Id, k: Id)
    requires Inv(w) && OnlyAt(w, w', id) && k != id
    ensures CredentialOk(w', k)
  {
    assert CredentialOk(w, k);
    assert SameAt(w.rows, w'.rows, k);
    if k in w.creates && w.creates[k].robot.Some? {
      assert SameAt(w.issued, w'.issued, w.creates[k].robot.value);
    }
    if k in w.activated && TakenAway(w, w.activated[k]) {
      var p := w.removedBy[w.activated[k]];
      assert CredentialOk(w, w.deletes[p].id);
      assert DeleteOk(w, p);
    }
  }

  lemma StaysWithin(w: World, w': World, id: Id)
    requires Inv(w) && OnlyAt(w, w', id) && NothingUnknown(w') && CredentialOk(w', id)
    ensures Inv(w')
  {
    hide CredentialOk, OnlyAt, NothingUnknown;
    forall k ensures CredentialOk(w', k) {
      if k != id { OthersKept(w, w', id, k); }
    }
  }

  /** The credential an action works on. */
  function Subject(w: World, a: Action): Id {
    match a
    case Find(_, _, id) => id
    case Remove(pid, _) => if pid in w.deletes then w.deletes[pid].id else 0
    case Drop(pid, _) => if pid in w.deletes then w.deletes[pid].id else 0
    case _ => a.id
  }

  lemma Untouched(w: World, id: Id)
    ensures OnlyAt(w, w, id)
  {
  }

  /** A create changes its own entries only. */
  lemma OneCreate(w: World, w': World, id: Id)
    requires id in w'.creates && w'.creates == w.creates[id := w'.creates[id]]
    requires w'.rows == w.rows || w'.rows == w.rows - {id} || (id in w'.rows && w'.rows == w.rows[id := w'.rows[id]])
    requires w'.activated == w.activated || (id in w'.activated && w'.activated == w.activated[id := w'.activated[id]])
    requires w'.deletes == w.deletes && RobotsOnlyAt(w, w', id)
    ensures OnlyAt(w, w', id)
  {
    hide RobotsOnlyAt;
  }

  lemma ReserveTouchesOne(w: World, id: Id, org: string, limit: nat, cloud: Cloud, call: Call)
    requires NothingUnknown(w)
    ensures OnlyAt(w, ReserveStep(w, id, org, limit, cloud, call), id) && NothingUnknown(ReserveStep(w, id, org, limit, cloud, call))
  {
    hide RobotsOnlyAt, OnlyAt, HasRoom;
    var w' := ReserveStep(w, id, org, limit, cloud, call);
    SameRobots(w, w', id);
    if w' == w { Untouched(w, id); } else { OneCreate(w, w', id); }
  }

  lemma CreateRobotTouchesOne(w: World, id: Id, robot: Robot, call: Call)
    requires NothingUnknown(w)
    ensures OnlyAt(w, CreateRobotStep(w, id, robot, call), id) && NothingUnknown(CreateRobotStep(w, id, robot, call))
  {
    hide RobotsOnlyAt, OnlyAt;
    var w' := CreateRobotStep(w, id, robot, call);
    if robot in w.issued { SameRobots(w, w', id); } else { OneNewRobot(w, w', id, robot); }
    if w' == w { Untouched(w, id); } else { OneCreate(w, w', id); }
  }

  lemma SameRobots(w: World, w': World, id: Id)
    requires w'.robots == w.robots && w'.issued == w.issued && w'.removedBy == w.removedBy
    ensures RobotsOnlyAt(w, w', id)
  {
  }

  lemma OneNewRobot(w: World, w': World, id: Id, robot: Robot)
    requires robot !in w.issued && w'.removedBy == w.removedBy
    requires (w'.robots == w.robots && w'.issued == w.issued)
          || (w'.robots == w.robots + {robot} && w'.issued == w.issued[robot := id])
    ensures RobotsOnlyAt(w, w', id)
  {
  }

  lemma ActivateTouchesOne(w: World, id: Id, call: Call)
    requires NothingUnknown(w)
    ensures OnlyAt(w, ActivateStep(w, id, call), id) && NothingUnknown(ActivateStep(w, id, call))
  {
    hide RobotsOnlyAt, OnlyAt, Provisioning;
    var w' := ActivateStep(w, id, call);
    SameRobots(w, w', id);
    if w' == w { Untouched(w, id); } else { OneCreate(w, w', id); }
  }

  lemma AnswerTouchesOne(w: World, id: Id, built: bool)
    requires NothingUnknown(w)
    ensures OnlyAt(w, AnswerStep(w, id, built), id) && NothingUnknown(AnswerStep(w, id, built))
  {
    hide RobotsOnlyAt, OnlyAt;
    var w' := AnswerStep(w, id, built);
    SameRobots(w, w', id);
    if w' == w { Untouched(w, id); } else { OneCreate(w, w', id); }
  }

  lemma UndoTouchesOne(w: World, id: Id, call: Call)
    requires NothingUnknown(w) && CreateOk(w, id)
    ensures OnlyAt(w, UndoStep(w, id, call), id) && NothingUnknown(UndoStep(w, id, call))
  {
  }

  lemma CancelTouchesOne(w: World, id: Id, call: Call)
    requires NothingUnknown(w)
    ensures OnlyAt(w, CancelStep(w, id, call), id) && NothingUnknown(CancelStep(w, id, call))
  {
    hide RobotsOnlyAt, OnlyAt, Provisioning;
    var w' := CancelStep(w, id, call);
    SameRobots(w, w', id);
    if w' == w { Untouched(w, id); } else { OneCreate(w, w', id); }
  }

  lemma FindTouchesOne(w: World, pid: nat, org: string, id: Id)
    requires NothingUnknown(w)
    ensures OnlyAt(w, FindStep(w, pid, org, id), id) && NothingUnknown(FindStep(w, pid, org, id))
  {
    hide RobotsOnlyAt, ActiveRow;
    SameRobots(w, FindStep(w, pid, org, id), id);
  }

  lemma RemoveTouchesOne(w: World, pid: nat, call: Call)
    requires NothingUnknown(w) && pid in w.deletes && DeleteOk(w, pid) && ActivatedOk(w, w.deletes[pid].id)
    ensures OnlyAt(w, RemoveStep(w, pid, call), w.deletes[pid].id) && NothingUnknown(RemoveStep(w, pid, call))
  {
  }

  lemma DropTouchesOne(w: World, pid: nat, call: Call)
    requires NothingUnknown(w) && pid in w.deletes
    ensures OnlyAt(w, DropStep(w, pid, call), w.deletes[pid].id) && NothingUnknown(DropStep(w, pid, call))
  {
    hide RobotsOnlyAt, ActiveRow;
    SameRobots(w, DropStep(w, pid, call), w.deletes[pid].id);
  }

  lemma ReserveKeeps(w: World, id: Id, org: string, limit: nat, cloud: Cloud, call: Call)
    requires NothingUnknown(w) && CredentialOk(w, id)
    ensures CredentialOk(ReserveStep(w, id, org, limit, cloud, call), id)
  {
    hide HasRoom;
  }

  lemma CreateRobotKeeps(w: World, id: Id, robot: Robot, call: Call)
    requires NothingUnknown(w) && CredentialOk(w, id)
    ensures CredentialOk(CreateRobotStep(w, id, robot, call), id)
  {
  }

  lemma ActivateKeeps(w: World, id: Id, call: Call)
    requires NothingUnknown(w) && CredentialOk(w, id)
    ensures CredentialOk(ActivateStep(w, id, call), id)
  {
  }

  lemma AnswerKeeps(w: World, id: Id, built: bool)
    requires NothingUnknown(w) && CredentialOk(w, id)
    ensures CredentialOk(AnswerStep(w, id, built), id)
  {
  }

  lemma UndoKeeps(w: World, id: Id, call: Call)
    requires NothingUnknown(w) && CredentialOk(w, id)
    ensures CredentialOk(UndoStep(w, id, call), id)
  {
  }

  lemma CancelKeeps(w: World, id: Id, call: Call)
    requires NothingUnknown(w) && CredentialOk(w, id)
    ensures CredentialOk(CancelStep(w, id, call), id)
  {
  }

  lemma FindKeeps(w: World, pid: nat, org: string, id: Id)
    requires NothingUnknown(w) && CredentialOk(w, id)
    ensures CredentialOk(FindStep(w, pid, org, id), id)
  {
  }

  lemma RemoveKeeps(w: World, pid: nat, call: Call)
    requires NothingUnknown(w) && pid in w.deletes && CredentialOk(w, w.deletes[pid].id)
    ensures CredentialOk(RemoveStep(w, pid, call), w.deletes[pid].id)
  {
  }

  lemma DropKeeps(w: World, pid: nat, call: Call)
    requires NothingUnknown(w) && pid in w.deletes && CredentialOk(w, w.deletes[pid].id)
    ensures CredentialOk(DropStep(w, pid, call), w.deletes[pid].id)
  {
  }

  /** Every step concerns one credential only. */
  lemma StepTouchesOne(w: World, a: Action)
    requires Inv(w)
    ensures OnlyAt(w, Step(w, a), Subject(w, a)) && NothingUnknown(Step(w, a))
  {
    hide CredentialOk, OnlyAt, NothingUnknown, ReserveStep, CreateRobotStep, ActivateStep, AnswerStep, UndoStep, CancelStep,
         FindStep, RemoveStep, DropStep;
    var id := Subject(w, a);
    assert CredentialOk(w, id);
    Known(w, id);
    match a {
      case Reserve(_, org, limit, cloud, call) => ReserveTouchesOne(w, id, org, limit, cloud, call);
      case CreateRobot(_, robot, call) => CreateRobotTouchesOne(w, id, robot, call);
      case Activate(_, call) => ActivateTouchesOne(w, id, call);
      case Answer(_, built) => AnswerTouchesOne(w, id, built);
      case Undo(_, call) => UndoTouchesOne(w, id, call);
      case Cancel(_, call) => CancelTouchesOne(w, id, call);
      case Find(pid, org, _) => FindTouchesOne(w, pid, org, id);
      case Remove(pid, call) =>
        UnknownDelete(w, pid, call);
        if pid in w.deletes { RemoveTouchesOne(w, pid, call); } else { Untouched(w, id); }
      case Drop(pid, call) =>
        UnknownDelete(w, pid, call);
        if pid in w.deletes { DropTouchesOne(w, pid, call); } else { Untouched(w, id); }
    }
  }

  lemma StepKeepsOne(w: World, a: Action)
    requires Inv(w)
    ensures CredentialOk(Step(w, a), Subject(w, a))
  {
    hide CredentialOk, NothingUnknown, ReserveStep, CreateRobotStep, ActivateStep, AnswerStep, UndoStep, CancelStep, FindStep,
         RemoveStep, DropStep;
    var id := Subject(w, a);
    assert CredentialOk(w, id);
    match a {
      case Reserve(_, org, limit, cloud, call) => ReserveKeeps(w, id, org, limit, cloud, call);
      case CreateRobot(_, robot, call) => CreateRobotKeeps(w, id, robot, call);
      case Activate(_, call) => ActivateKeeps(w, id, call);
      case Answer(_, built) => AnswerKeeps(w, id, built);
      case Undo(_, call) => UndoKeeps(w, id, call);
      case Cancel(_, call) => CancelKeeps(w, id, call);
      case Find(pid, org, _) => FindKeeps(w, pid, org, id);
      case Remove(pid, call) =>
        UnknownDelete(w, pid, call);
        if pid in w.deletes { RemoveKeeps(w, pid, call); }
      case Drop(pid, call) =>
        UnknownDelete(w, pid, call);
        if pid in w.deletes { DropKeeps(w, pid, call); }
    }
  }

  lemma StepPreserves(w: World, a: Action)
    requires Inv(w)
    ensures Inv(Step(w, a))
  {
    hide CredentialOk, OnlyAt, NothingUnknown, Step;
    StepTouchesOne(w, a);
    StepKeepsOne(w, a);
    StaysWithin(w, Step(w, a), Subject(w, a));
  }

  lemma Known(w: World, id: Id)
    requires CredentialOk(w, id)
    ensures CreateOk(w, id) && ActivatedOk(w, id)
    ensures forall pid :: pid in w.deletes && w.deletes[pid].id == id ==> DeleteOk(w, pid)
  {
  }

  lemma UnknownDelete(w: World, pid: nat, call: Call)
    ensures pid !in w.deletes ==> RemoveStep(w, pid, call) == w && DropStep(w, pid, call) == w
  {
  }

  /** In every interleaving of any number of creates and deletes, with any calls failing. */
  lemma {:induction false} RunPreserves(actions: seq<Action>)
    ensures Inv(Run(EMPTY, actions))
    decreases |actions|
  {
    if actions != [] {
      hide Step, CredentialOk;
      RunPreserves(actions[..|actions| - 1]);
      StepPreserves(Run(EMPTY, actions[..|actions| - 1]), actions[|actions| - 1]);
    }
  }

  // ---------------------------------------------------------------- every run

  /**
  A secret is returned only for a row that was activated with that robot. From then on the row is
  active with that robot, or a delete dropped it, and then the robot is gone for good.
  */
  lemma SecretsAreBacked(actions: seq<Action>, id: Id)
    requires id in Run(EMPTY, actions).creates && Run(EMPTY, actions).creates[id].stage == Returned
    ensures var w := Run(EMPTY, actions);
            var c := w.creates[id];
            && c.robot.Some? && id in w.activated && w.activated[id] == c.robot.value
            && (id in w.rows ==> w.rows[id] == Row(c.org, true, c.robot))
            && (id !in w.rows ==> c.robot.value !in w.robots)
  {
    hide Run;
    RunPreserves(actions);
    assert CredentialOk(Run(EMPTY, actions), id);
  }

  /** No two creates ever return the same robot. */
  lemma SecretsAreDistinct(actions: seq<Action>, id: Id, other: Id)
    requires id != other
    requires id in Run(EMPTY, actions).activated && other in Run(EMPTY, actions).activated
    ensures Run(EMPTY, actions).activated[id] != Run(EMPTY, actions).activated[other]
  {
    hide Run;
    RunPreserves(actions);
    assert CredentialOk(Run(EMPTY, actions), id) && CredentialOk(Run(EMPTY, actions), other);
  }

  /** Whatever fails, an active row is dropped only by a delete of it, once its robot is gone. */
  lemma RowsOutliveRobots(actions: seq<Action>, a: Action, id: Id)
    requires var w := Run(EMPTY, actions);
             id in w.rows && w.rows[id].active && id !in Step(w, a).rows
    ensures var w := Run(EMPTY, actions);
            w.rows[id].robot.Some? && w.rows[id].robot.value !in w.robots
            && a.Drop? && a.pid in w.deletes && w.deletes[a.pid].id == id
  {
    hide Run;
    RunPreserves(actions);
    var w := Run(EMPTY, actions);
    assert CredentialOk(w, id);
    if a.Drop? && a.pid in w.deletes {
      assert CredentialOk(w, w.deletes[a.pid].id);
      assert DeleteOk(w, a.pid);
    }
  }

  lemma GoneStaysGone(w: World, a: Action, robot: Robot)
    requires robot in w.issued && robot !in w.robots
    ensures robot in Step(w, a).issued && robot !in Step(w, a).robots
  {
    hide HasRoom;
  }

  /** A robot that is gone never comes back, so its secret never works again. */
  lemma {:induction false} RobotsDoNotReturn(w: World, more: seq<Action>, robot: Robot)
    requires robot in w.issued && robot !in w.robots
    ensures robot in Run(w, more).issued && robot !in Run(w, more).robots
    decreases |more|
  {
    hide Step;
    if more != [] {
      RobotsDoNotReturn(w, more[..|more| - 1], robot);
      GoneStaysGone(Run(w, more[..|more| - 1]), more[|more| - 1], robot);
    }
  }

  ghost predicate CleanCreate(w: World, id: Id) {
    id in w.creates && !w.creates[id].lost && (w.creates[id].stage == Returned || w.creates[id].stage == Abandoned)
  }

  /** A create that finished cleanly left an active row, or neither a row nor any live robot. */
  lemma FinishedCreates(actions: seq<Action>, id: Id, robot: Robot)
    requires CleanCreate(Run(EMPTY, actions), id)
    ensures var w := Run(EMPTY, actions);
            && (id in w.rows ==>
                  && w.rows[id].active && w.rows[id].robot.Some?
                  && (w.rows[id].robot.value in w.robots || TakenAway(w, w.rows[id].robot.value)))
            && (robot in w.robots && robot in w.issued && w.issued[robot] == id ==>
                  id in w.rows && w.rows[id].robot == Some(robot))
  {
    hide Run;
    RunPreserves(actions);
    assert CredentialOk(Run(EMPTY, actions), id);
  }

  ghost predicate Settled(w: World) {
    && (forall id :: id in w.creates ==> CleanCreate(w, id))
    && (forall pid :: pid in w.deletes ==>
          !w.deletes[pid].lost && (w.deletes[pid].stage == Deleted || w.deletes[pid].stage == GivenUp))
  }

  /**
  Once every handler has finished and none lost an effect, rows and robots correspond one to one:
  every row is active with a live robot of its own, and every live robot has its row.
  */
  lemma SettledMeansConsistent(actions: seq<Action>)
    requires Settled(Run(EMPTY, actions))
    ensures var w := Run(EMPTY, actions);
            && (forall id :: id in w.rows ==>
                  w.rows[id].active && w.rows[id].robot.Some? && w.rows[id].robot.value in w.robots)
            && (forall robot :: robot in w.robots ==>
                  robot in w.issued && w.issued[robot] in w.rows && w.rows[w.issued[robot]].robot == Some(robot))
  {
    hide Run;
    RunPreserves(actions);
    var w := Run(EMPTY, actions);
    forall id | id in w.rows
      ensures w.rows[id].active && w.rows[id].robot.Some? && w.rows[id].robot.value in w.robots
    {
      assert CredentialOk(w, id);
      assert CleanCreate(w, id);
    }
    forall robot | robot in w.robots
      ensures robot in w.issued && w.issued[robot] in w.rows && w.rows[w.issued[robot]].robot == Some(robot)
    {
      assert CredentialOk(w, w.issued[robot]);
      assert CleanCreate(w, w.issued[robot]);
    }
  }

  /** The condition is needed: a lost answer to the robot's creation leaves a robot nobody can list or delete. */
  lemma LostAnswerLeavesRobot(org: string)
    ensures var w := Run(EMPTY, [Reserve(0, org, 1, Disabled, Answered), CreateRobot(0, 7, Failed(true)), Cancel(0, Answered)]);
            0 in w.creates && w.creates[0].stage == Abandoned && 7 in w.robots && w.rows == map[]
  {
    var first, second, third := Reserve(0, org, 1, Disabled, Answered), CreateRobot(0, 7, Failed(true)), Cancel(0, Answered);
    RunThree(first, second, third);
    hide Run, Step;
    ReservesAlone(org);
    LosesAnswer(Step(EMPTY, first), org);
    CancelsAlone(Step(Step(EMPTY, first), second), org);
  }

  lemma ReservesAlone(org: string)
    ensures var w := Step(EMPTY, Reserve(0, org, 1, Disabled, Answered));
            && w.rows == map[0 := Row(org, false, None)] && w.creates == map[0 := Create(org, Creating, None, false)]
            && w.issued == map[]
  {
    assert Held(EMPTY, {org}) == {};
  }

  lemma LosesAnswer(w: World, org: string)
    requires w.rows == map[0 := Row(org, false, None)] && w.creates == map[0 := Create(org, Creating, None, false)]
    requires w.issued == map[]
    ensures var w' := Step(w, CreateRobot(0, 7, Failed(true)));
            && w'.rows == w.rows && w'.creates == map[0 := Create(org, Cancelling, None, true)] && 7 in w'.robots
  {
  }

  lemma CancelsAlone(w: World, org: string)
    requires w.rows == map[0 := Row(org, false, None)] && w.creates == map[0 := Create(org, Cancelling, None, true)]
    ensures var w' := Step(w, Cancel(0, Answered));
            && w'.rows == map[] && w'.robots == w.robots && 0 in w'.creates && w'.creates[0].stage == Abandoned
  {
  }

  lemma RunThree(a: Action, b: Action, c: Action)
    ensures Run(EMPTY, [a, b, c]) == Step(Step(Step(EMPTY, a), b), c)
  {
    hide Step;
    assert [a, b, c][..2] == [a, b] && [a, b][..1] == [a] && [a][..0] == [];
    assert Run(EMPTY, [a]) == Step(EMPTY, a);
    assert Run(EMPTY, [a, b]) == Step(Step(EMPTY, a), b);
  }

  /** An active row always names its robot, so a delete never stops for the lack of one. */
  lemma ActiveRowsNameTheirRobot(actions: seq<Action>, id: Id)
    requires id in Run(EMPTY, actions).rows && Run(EMPTY, actions).rows[id].active
    ensures Run(EMPTY, actions).rows[id].robot.Some?
  {
    hide Run;
    RunPreserves(actions);
    assert CredentialOk(Run(EMPTY, actions), id);
  }

  /** Once a delete has removed the robot, a row it does not find is gone, not somebody else's. */
  lemma NotFoundMeansGone(actions: seq<Action>, pid: nat)
    requires var w := Run(EMPTY, actions);
             pid in w.deletes && w.deletes[pid].stage == Dropping && !ActiveRow(w, w.deletes[pid].id, w.deletes[pid].org)
    ensures var w := Run(EMPTY, actions); w.deletes[pid].id !in w.rows && w.deletes[pid].robot !in w.robots
  {
    hide Run;
    RunPreserves(actions);
    var w := Run(EMPTY, actions);
    assert CredentialOk(w, w.deletes[pid].id);
    assert DeleteOk(w, pid);
  }

  /** A delete that succeeded left neither row nor robot. */
  lemma DeletedMeansGone(actions: seq<Action>, pid: nat)
    requires var w := Run(EMPTY, actions); pid in w.deletes && w.deletes[pid].stage == Deleted
    ensures var w := Run(EMPTY, actions); w.deletes[pid].id !in w.rows && w.deletes[pid].robot !in w.robots
  {
    hide Run;
    RunPreserves(actions);
    var w := Run(EMPTY, actions);
    assert CredentialOk(w, w.deletes[pid].id);
    assert DeleteOk(w, pid);
  }

  // ---------------------------------------------------------------- the limit

  lemma HeldAfterReserve(w: World, a: Action, orgs: set<string>)
    requires a.Reserve?
    ensures Held(Step(w, a), orgs) <= Held(w, orgs)
            || (a.org in orgs && HasRoom(w, a.org, a.limit, a.cloud) && Held(Step(w, a), orgs) == Held(w, orgs) + {a.id})
  {
    hide HasRoom;
  }

  lemma HeldAfterOther(w: World, a: Action, orgs: set<string>)
    requires !a.Reserve?
    ensures Held(Step(w, a), orgs) <= Held(w, orgs)
  {
    hide ReserveStep;
  }

  /** Every reservation of one of these organizations was made under a limit on just them, of at most this many. */
  ghost predicate LimitedTo(actions: seq<Action>, orgs: set<string>, most: nat) {
    forall i :: 0 <= i < |actions| && actions[i].Reserve? && actions[i].org in orgs ==>
      || (orgs == {actions[i].org} && actions[i].limit <= most)
      || (actions[i].cloud.Limited? && actions[i].cloud.accounts == orgs && actions[i].cloud.most <= most)
  }

  lemma {:induction false} HoldingsStayWithin(actions: seq<Action>, orgs: set<string>, most: nat)
    requires LimitedTo(actions, orgs, most)
    ensures |Held(Run(EMPTY, actions), orgs)| <= most
    decreases |actions|
  {
    hide Step;
    if actions == [] {
      assert Held(EMPTY, orgs) == {};
    } else {
      var before, a := Run(EMPTY, actions[..|actions| - 1]), actions[|actions| - 1];
      HoldingsStayWithin(actions[..|actions| - 1], orgs, most);
      if a.Reserve? { HeldAfterReserve(before, a, orgs); } else { HeldAfterOther(before, a, orgs); }
      if Held(Step(before, a), orgs) <= Held(before, orgs) {
        SubsetIsSmaller(Held(Step(before, a), orgs), Held(before, orgs));
      } else {
        assert |Held(before, orgs) + {a.id}| <= |Held(before, orgs)| + 1;
      }
    }
  }

  /** Reservations included, an organization never holds more credentials than its limit allowed. */
  lemma CredentialsStayWithinLimit(actions: seq<Action>, org: string, most: nat)
    requires forall i :: 0 <= i < |actions| && actions[i].Reserve? && actions[i].org == org ==> actions[i].limit <= most
    ensures |Held(Run(EMPTY, actions), {org})| <= most
  {
    hide Run, Held;
    HoldingsStayWithin(actions, {org}, most);
  }

  /** Nor do the accounts of a cloud organization together, once that limit is enabled. */
  lemma CloudStaysWithinLimit(actions: seq<Action>, accounts: set<string>, most: nat)
    requires forall i :: 0 <= i < |actions| && actions[i].Reserve? && actions[i].org in accounts ==>
               actions[i].cloud.Limited? && actions[i].cloud.accounts == accounts && actions[i].cloud.most <= most
    ensures |Held(Run(EMPTY, actions), accounts)| <= most
  {
    hide Run, Held;
    HoldingsStayWithin(actions, accounts, most);
  }
}

/** The two request handlers, stepping through the shared stores while others act in between. */
module RegistryHandlers {
  import opened Outcomes
  import opened RegistryCredentials

  datatype RequestError = LimitExceeded | NotFound | ProviderUnavailable | StoreFailed | Internal

  /** What others do before each of a handler's calls. */
  predicate SparesCreate(env: seq<Action>, id: Id, robot: Robot) {
    forall i :: 0 <= i < |env| ==>
      (env[i].CreateRobot? ==> env[i].robot != robot)
      && (env[i].Find? || env[i].Remove? || env[i].Drop? || env[i].id != id)
  }

  predicate SparesDelete(env: seq<Action>, pid: nat) {
    forall i :: 0 <= i < |env| ==> (env[i].Find? || env[i].Remove? || env[i].Drop? ==> env[i].pid != pid)
  }

  predicate SameCreate(w: World, w': World, id: Id, robot: Robot) {
    SameAt(w.creates, w'.creates, id) && (robot in w.issued <==> robot in w'.issued)
  }

  lemma DeleteSparesCreate(w: World, a: Action)
    requires a.Find? || a.Remove? || a.Drop?
    ensures Step(w, a).creates == w.creates && Step(w, a).issued == w.issued
  {
    hide ActiveRow;
  }

  lemma ForwardSparesCreate(w: World, a: Action, id: Id, robot: Robot)
    requires a.Reserve? || (a.CreateRobot? && a.robot != robot) || a.Activate?
    requires a.id != id
    ensures SameCreate(w, Step(w, a), id, robot)
  {
    hide HasRoom, Provisioning;
  }

  lemma BackwardSparesCreate(w: World, a: Action, id: Id, robot: Robot)
    requires (a.Undo? || a.Cancel? || a.Answer?) && a.id != id
    ensures SameCreate(w, Step(w, a), id, robot)
  {
    hide Provisioning;
  }

  lemma StepSparesCreate(w: World, a: Action, id: Id, robot: Robot)
    requires SparesCreate([a], id, robot)
    ensures SameCreate(w, Step(w, a), id, robot)
  {
    hide Step;
    assert [a][0] == a;
    if a.Find? || a.Remove? || a.Drop? {
      DeleteSparesCreate(w, a);
    } else if a.Undo? || a.Cancel? || a.Answer? {
      BackwardSparesCreate(w, a, id, robot);
    } else {
      ForwardSparesCreate(w, a, id, robot);
    }
  }

  lemma {:induction false} RunSparesCreate(w: World, env: seq<Action>, id: Id, robot: Robot)
    requires SparesCreate(env, id, robot)
    ensures SameCreate(w, Run(w, env), id, robot)
    decreases |env|
  {
    hide Step;
    if env != [] {
      RunSparesCreate(w, env[..|env| - 1], id, robot);
      StepSparesCreate(Run(w, env[..|env| - 1]), env[|env| - 1], id, robot);
    }
  }

  lemma StepSparesDelete(w: World, a: Action, pid: nat)
    requires SparesDelete([a], pid)
    ensures SameAt(w.deletes, Step(w, a).deletes, pid)
  {
    hide HasRoom, Provisioning, ActiveRow;
    assert [a][0] == a;
  }

  lemma {:induction false} RunSparesDelete(w: World, env: seq<Action>, pid: nat)
    requires SparesDelete(env, pid)
    ensures SameAt(w.deletes, Run(w, env).deletes, pid)
    decreases |env|
  {
    hide Step;
    if env != [] {
      RunSparesDelete(w, env[..|env| - 1], pid);
      StepSparesDelete(Run(w, env[..|env| - 1]), env[|env| - 1], pid);
    }
  }

  lemma RunSnoc(w: World, actions: seq<Action>, a: Action)
    ensures Run(w, actions + [a]) == Step(Run(w, actions), a)
  {
    hide Step;
    assert (actions + [a])[..|actions|] == actions;
  }

  /**
  How a create ends. A returned robot is backed by its row, unless a delete took both. A refused
  request that lost no effect leaves no reservation behind, and no robot without its row.
  */
  ghost predicate CreateLeaves(w: World, id: Id, org: string, robot: Robot, result: Result<Robot, RequestError>) {
    match result
    case Ok(returned) =>
      && returned == robot && id in w.creates && w.creates[id] == Create(org, Returned, Some(robot), false)
      && id in w.activated && w.activated[id] == robot
      && (id in w.rows ==> w.rows[id] == Row(org, true, Some(robot)))
      && (id !in w.rows ==> robot !in w.robots)
    case Err(_) =>
      id in w.creates ==>
        && w.creates[id].stage == Abandoned
        && (!w.creates[id].lost ==>
              && (id in w.rows ==> w.rows[id].active)
              && (forall r :: r in w.robots && r in w.issued && w.issued[r] == id ==>
                    id in w.rows && w.rows[id].robot == Some(r)))
  }

  lemma CreateEnds(actions: seq<Action>, id: Id, org: string, robot: Robot, result: Result<Robot, RequestError>)
    requires var w := Run(EMPTY, actions);
             match result
             case Ok(returned) =>
               returned == robot && id in w.creates && w.creates[id] == Create(org, Returned, Some(robot), false)
             case Err(_) => id in w.creates ==> w.creates[id].stage == Abandoned
    ensures CreateLeaves(Run(EMPTY, actions), id, org, robot, result)
  {
    hide Run;
    var w := Run(EMPTY, actions);
    if result.Ok? {
      SecretsAreBacked(actions, id);
    } else if CleanCreate(w, id) {
      forall r | r in w.robots && r in w.issued && w.issued[r] == id
        ensures id in w.rows && w.rows[id].robot == Some(r)
      {
        FinishedCreates(actions, id, r);
      }
      FinishedCreates(actions, id, robot);
    }
  }

  /** Row and robot are both there and belong together, or both are absent. */
  predicate Coherent(w: World, id: Id, robot: Robot) {
    || (id in w.rows && w.rows[id].active && w.rows[id].robot == Some(robot) && robot in w.robots)
    || (id !in w.rows && robot !in w.robots)
  }

  /** The calls of a create in order: reserve, create the robot, activate, remove the robot, cancel. */
  predicate CallsKeepCoherent(calls: seq<Call>)
    requires |calls| == 5
  {
    if !calls[0].Answered? then !calls[0].applied
    else if !calls[1].Answered? then !calls[1].applied && Applied(calls[4])
    else if calls[2].Answered? then true
    else if calls[2].applied then !Applied(calls[3])
    else Applied(calls[3]) && Applied(calls[4])
  }

  /** Nobody else acts on this credential; others may do anything else. */
  predicate Avoids(env: seq<Action>, id: Id) {
    forall i :: 0 <= i < |env| ==>
      match env[i]
      case Find(_, _, target) => target != id
      case Remove(_, _) => true
      case Drop(_, _) => true
      case _ => env[i].id != id
  }

  predicate AllAvoid(envs: seq<seq<Action>>, id: Id) {
    forall i :: 0 <= i < |envs| ==> Avoids(envs[i], id)
  }

  /** No delete of this credential is under way, except these. */
  ghost predicate OnlyDeletedBy(w: World, id: Id, own: set<nat>) {
    forall pid :: pid in w.deletes && w.deletes[pid].id == id ==> pid in own
  }

  predicate NotBy(env: seq<Action>, own: set<nat>) {
    forall i :: 0 <= i < |env| ==> (env[i].Find? || env[i].Remove? || env[i].Drop? ==> env[i].pid !in own)
  }

  /** The credential's row is as it was, and so are the robots made for it. */
  predicate SameCredential(w: World, w': World, id: Id, robot: Robot) {
    && SameAt(w.rows, w'.rows, id)
    && (robot in w.issued && w.issued[robot] == id ==>
          robot in w'.issued && w'.issued[robot] == id && (robot in w.robots <==> robot in w'.robots))
  }

  lemma StepAvoids(w: World, a: Action, id: Id, robot: Robot, own: set<nat>)
    requires Inv(w) && Avoids([a], id) && NotBy([a], own) && OnlyDeletedBy(w, id, own)
    ensures SameCredential(w, Step(w, a), id, robot) && OnlyDeletedBy(Step(w, a), id, own)
  {
    assert [a][0] == a;
    StepTouchesOne(w, a);
    hide Step, Inv, NothingUnknown;
    if (a.Remove? || a.Drop?) && a.pid !in w.deletes {
      Idle(w, a);
    } else {
      assert Subject(w, a) != id;
    }
  }

  lemma Idle(w: World, a: Action)
    requires (a.Remove? || a.Drop?) && a.pid !in w.deletes
    ensures Step(w, a) == w
  {
  }

  lemma {:induction false} RunAvoids(w: World, env: seq<Action>, id: Id, robot: Robot, own: set<nat>)
    requires Inv(w) && Avoids(env, id) && NotBy(env, own) && OnlyDeletedBy(w, id, own)
    ensures Inv(Run(w, env)) && SameCredential(w, Run(w, env), id, robot) && OnlyDeletedBy(Run(w, env), id, own)
    decreases |env|
  {
    hide Step, Inv, OnlyDeletedBy;
    if env != [] {
      var init, a := env[..|env| - 1], env[|env| - 1];
      RunAvoids(w, init, id, robot, own);
      StepAvoids(Run(w, init), a, id, robot, own);
      StepPreserves(Run(w, init), a);
    }
  }

  /** The same for whoever acts in the class, whose world is a run. */
  lemma Undisturbed(actions: seq<Action>, env: seq<Action>, id: Id, robot: Robot, own: set<nat>)
    requires NotBy(env, own)
    ensures var w := Run(EMPTY, actions);
            Avoids(env, id) && OnlyDeletedBy(w, id, own) ==>
              SameCredential(w, Run(w, env), id, robot) && OnlyDeletedBy(Run(w, env), id, own)
  {
    hide Inv, OnlyDeletedBy, Avoids, NotBy, SameCredential;
    RunPreserves(actions);
    if Avoids(env, id) && OnlyDeletedBy(Run(EMPTY, actions), id, own) {
      RunAvoids(Run(EMPTY, actions), env, id, robot, own);
    }
  }

  /** What a create may rely on: nobody else touches its reservation, and robots are not guessed. */
  lemma OwnState(actions: seq<Action>, id: Id, robot: Robot)
    ensures var w := Run(EMPTY, actions);
            && (id !in w.creates ==> id !in w.rows)
            && (id in w.creates && w.creates[id].stage == Creating ==>
                  id in w.rows && w.rows[id] == Row(w.creates[id].org, false, None))
            && (id in w.creates && w.creates[id].stage == Holding ==>
                  && id in w.rows && w.rows[id] == Row(w.creates[id].org, false, None)
                  && w.creates[id].robot.Some? && w.creates[id].robot.value in w.robots)
            && (id !in w.creates || w.creates[id].stage == Creating || w.creates[id].stage == Holding ==>
                  OnlyDeletedBy(w, id, {}))
            && (robot !in w.issued ==> robot !in w.robots)
  {
    hide Run;
    RunPreserves(actions);
    assert CredentialOk(Run(EMPTY, actions), id);
  }

  /** There is room for one more: fewer rows than the organization's limit, and than that of its cloud organization. */
  predicate Roomy(w: World, org: string, limit: nat, cloud: Cloud) {
    && |RowsOf(w, org)| < limit
    && match cloud
       case Disabled => true
       case NoMember => false
       case Limited(accounts, most) => |RowsOfAny(w, accounts)| < most
  }

  function RowsOf(w: World, org: string): set<Id> {
    set id | id in w.rows && w.rows[id].org == org
  }

  function RowsOfAny(w: World, accounts: set<string>): set<Id> {
    set id | id in w.rows && w.rows[id].org in accounts
  }

  lemma HasRoomExactly(w: World, org: string, limit: nat, cloud: Cloud)
    ensures HasRoom(w, org, limit, cloud) <==> Roomy(w, org, limit, cloud)
  {
    assert Held(w, {org}) == RowsOf(w, org);
    if cloud.Limited? { assert Held(w, cloud.accounts) == RowsOfAny(w, cloud.accounts); }
  }

  /** The error of a create that fails: that of its first call to fail. */
  function CreateError(w: World, org: string, limit: nat, cloud: Cloud, calls: seq<Call>): RequestError
    requires |calls| == 5
  {
    if !Roomy(w, org, limit, cloud) then
      if cloud == NoMember && Roomy(w, org, limit, Disabled) then NotFound else LimitExceeded
    else if calls[0] != Answered then StoreFailed
    else if calls[1] != Answered then ProviderUnavailable
    else if calls[2] != Answered then StoreFailed
    else ProviderUnavailable
  }

  /** The error of a create that is refused a reservation, or does not get one. */
  lemma Refusal(w: World, org: string, limit: nat, cloud: Cloud, calls: seq<Call>)
    requires |calls| == 5
    ensures HasRoom(w, org, limit, cloud) <==> Roomy(w, org, limit, cloud)
    ensures !HasRoom(w, org, limit, cloud) || !calls[0].Answered? ==>
              CreateError(w, org, limit, cloud, calls) ==
              if cloud.NoMember? && |Held(w, {org})| < limit then NotFound
              else if !HasRoom(w, org, limit, cloud) then LimitExceeded else StoreFailed
    ensures HasRoom(w, org, limit, cloud) && calls[0].Answered? ==>
              CreateError(w, org, limit, cloud, calls) ==
              if calls[1].Answered? && !calls[2].Answered? then StoreFailed else ProviderUnavailable
  {
    HasRoomExactly(w, org, limit, cloud);
    HasRoomExactly(w, org, limit, Disabled);
    hide Roomy, Held;
  }

  class Registry {
    var world: World
    ghost var trace: seq<Action>

    ghost predicate Valid()
      reads this
    {
      world == Run(EMPTY, trace)
    }

    constructor ()
      ensures Valid() && world == EMPTY
    {
      world, trace := EMPTY, [];
    }

    method Perform(a: Action)
      requires Valid()
      modifies this
      ensures Valid() && world == Step(old(world), a) && trace == old(trace) + [a]
    {
      hide Step;
      RunSnoc(EMPTY, trace, a);
      world := Step(world, a);
      trace := trace + [a];
    }

    method Interfere(env: seq<Action>)
      requires Valid()
      modifies this
      ensures Valid() && world == Run(old(world), env) && trace == old(trace) + env
    {
      hide Step;
      ghost var first, before := world, trace;
      for i := 0 to |env|
        invariant Valid() && world == Run(first, env[..i]) && trace == before + env[..i]
      {
        assert env[..i + 1] == env[..i] + [env[i]];
        RunSnoc(first, env[..i], env[i]);
        assert before + env[..i + 1] == before + env[..i] + [env[i]];
        Perform(env[i]);
      }
      assert env[..|env|] == env;
    }

    /**
    `create_registry_credential` from its reservation on. While nobody deletes this credential, row and
    robot end up together or both absent exactly for the outcomes of its calls that keep them so.
    */
    method CreateCredential(
      id: Id, org: string, limit: nat, cloud: Cloud, robot: Robot, envs: seq<seq<Action>>, calls: seq<Call>, built: bool)
      returns (result: Result<Robot, RequestError>)
      requires Valid() && id !in world.creates && robot !in world.issued
      requires |envs| == 5 && |calls| == 5 && forall i :: 0 <= i < 5 ==> SparesCreate(envs[i], id, robot)
      modifies this
      ensures Valid() && old(trace) <= trace
      ensures CreateLeaves(world, id, org, robot, result)
      ensures result.Ok? <==>
                && old(Roomy(world, org, limit, cloud))
                && calls[0].Answered? && calls[1].Answered? && calls[2].Answered? && built
      ensures result.Err? ==> result.error == old(CreateError(world, org, limit, cloud, calls))
      ensures AllAvoid(envs, id) ==>
                (Coherent(world, id, robot) <==> old(!Roomy(world, org, limit, cloud)) || CallsKeepCoherent(calls))
    {
      hide Run, HasRoom, Roomy, CreateError, Provisioning, SparesCreate, CreateLeaves, AllAvoid;
      OwnState(trace, id, robot);
      Refusal(world, org, limit, cloud, calls);
      var room := HasRoom(world, org, limit, cloud);
      var missing := cloud.NoMember? && |Held(world, {org})| < limit;
      Perform(Reserve(id, org, limit, cloud, calls[0]));
      if !room || !calls[0].Answered? {
        result := Err(if missing then NotFound else if !room then LimitExceeded else StoreFailed);
        CreateEnds(trace, id, org, robot, result);
        return;
      }
      result := MakeRobot(id, org, robot, envs, calls, built);
    }

    /** The part of the create under its reservation. */
    method MakeRobot(id: Id, org: string, robot: Robot, envs: seq<seq<Action>>, calls: seq<Call>, built: bool)
      returns (result: Result<Robot, RequestError>)
      requires Valid() && robot !in world.issued
      requires id in world.creates && world.creates[id] == Create(org, Creating, None, false)
      requires |envs| == 5 && |calls| == 5 && calls[0].Answered?
      requires forall i :: 0 <= i < 5 ==> SparesCreate(envs[i], id, robot)
      modifies this
      ensures Valid() && old(trace) <= trace
      ensures CreateLeaves(world, id, org, robot, result)
      ensures result.Ok? <==> calls[1].Answered? && calls[2].Answered? && built
      ensures result.Err? ==>
                result.error == if calls[1].Answered? && !calls[2].Answered? then StoreFailed else ProviderUnavailable
      ensures AllAvoid(envs, id) ==> (Coherent(world, id, robot) <==> CallsKeepCoherent(calls))
    {
      hide Run, HasRoom, SparesCreate, CreateLeaves, Avoids, OnlyDeletedBy;
      RunSparesCreate(world, envs[0], id, robot);
      Interfere(envs[0]);
      OwnState(trace, id, robot);
      ghost var mid := world;
      Perform(CreateRobot(id, robot, calls[1]));
      KeepsDeletes(mid, world, id);
      if !calls[1].Answered? {
        RunSparesCreate(world, envs[1], id, robot);
        Undisturbed(trace, envs[1], id, robot, {});
        Interfere(envs[1]);
        OwnState(trace, id, robot);
        Perform(Cancel(id, calls[4]));
        result := Err(ProviderUnavailable);
        CreateEnds(trace, id, org, robot, result);
        return;
      }
      result := FinishCreate(id, org, robot, envs[2..], calls, built);
    }

    /** The part of the create after the robot exists. */
    method FinishCreate(id: Id, org: string, robot: Robot, envs: seq<seq<Action>>, calls: seq<Call>, built: bool)
      returns (result: Result<Robot, RequestError>)
      requires Valid() && id in world.creates && world.creates[id] == Create(org, Holding, Some(robot), false)
      requires |envs| == 3 && |calls| == 5 && calls[0].Answered? && calls[1].Answered?
      requires forall i :: 0 <= i < 3 ==> SparesCreate(envs[i], id, robot)
      modifies this
      ensures Valid() && old(trace) <= trace
      ensures CreateLeaves(world, id, org, robot, result)
      ensures result.Ok? <==> calls[2].Answered? && built
      ensures result.Err? ==> result.error == if calls[2].Answered? then ProviderUnavailable else StoreFailed
      ensures AllAvoid(envs, id) ==> (Coherent(world, id, robot) <==> CallsKeepCoherent(calls))
    {
      hide Run, SparesCreate, CreateLeaves, Avoids;
      RunSparesCreate(world, envs[0], id, robot);
      Interfere(envs[0]);
      OwnState(trace, id, robot);
      var provisioning := Provisioning(world, id, org);
      Perform(Activate(id, calls[2]));
      if !calls[2].Answered? || !provisioning {
        result := Compensate(id, org, robot, envs[1..], calls[3..]);
        return;
      }
      Perform(Answer(id, built));
      result := if built then Ok(robot) else Err(ProviderUnavailable);
      CreateEnds(trace, id, org, robot, result);
    }

    /** Best effort: both results are ignored. */
    method Compensate(id: Id, org: string, robot: Robot, envs: seq<seq<Action>>, calls: seq<Call>)
      returns (result: Result<Robot, RequestError>)
      requires Valid() && id in world.creates
      requires world.creates[id].stage == Undoing && world.creates[id].robot == Some(robot) && world.creates[id].org == org
      requires |envs| == 2 && |calls| == 2 && forall i :: 0 <= i < 2 ==> SparesCreate(envs[i], id, robot)
      modifies this
      ensures Valid() && old(trace) <= trace
      ensures result == Err(StoreFailed) && CreateLeaves(world, id, org, robot, result)
      ensures AllAvoid(envs, id) && old(OnlyDeletedBy(world, id, {}) && robot in world.robots) ==>
                && (old(id in world.rows && world.rows[id] == Row(org, false, None)) ==>
                      (Coherent(world, id, robot) <==> Applied(calls[0]) && Applied(calls[1])))
                && (old(id in world.rows && world.rows[id] == Row(org, true, Some(robot))) ==>
                      (Coherent(world, id, robot) <==> !Applied(calls[0])))
    {
      hide Run, SparesCreate, CreateLeaves, Avoids, OnlyDeletedBy;
      OwnRobot(trace, id);
      RunSparesCreate(world, envs[0], id, robot);
      Undisturbed(trace, envs[0], id, robot, {});
      Interfere(envs[0]);
      OwnRobot(trace, id);
      ghost var mid := world;
      Perform(Undo(id, calls[0]));
      KeepsDeletes(mid, world, id);
      RunSparesCreate(world, envs[1], id, robot);
      Undisturbed(trace, envs[1], id, robot, {});
      Interfere(envs[1]);
      Perform(Cancel(id, calls[1]));
      result := Err(StoreFailed);
      CreateEnds(trace, id, org, robot, result);
    }

    /** `delete_registry_credential`: success means that row and robot are both gone. */
    method DeleteCredential(pid: nat, org: string, id: Id, envs: seq<seq<Action>>, calls: seq<Call>)
      returns (result: Result<Robot, RequestError>)
      requires Valid() && pid !in world.deletes
      requires |envs| == 2 && |calls| == 2 && forall i :: 0 <= i < 2 ==> SparesDelete(envs[i], pid)
      modifies this
      ensures Valid() && old(trace) <= trace
      ensures old(!ActiveRow(world, id, org)) <==> result == Err(NotFound) && world == old(world)
      ensures result != Err(Internal)
      ensures result.Ok? ==> old(ActiveRow(world, id, org)) && old(world.rows[id].robot) == Some(result.value)
      ensures old(ActiveRow(world, id, org)) && calls[0].Answered? && calls[1].Answered? ==>
                && (result.Ok? || result == Err(NotFound))
                && id !in world.rows && old(world.rows[id].robot).Some? && old(world.rows[id].robot).value !in world.robots
      ensures old(ActiveRow(world, id, org)) && !(calls[0].Answered? && calls[1].Answered?) ==>
                result == Err(if calls[0].Answered? then StoreFailed else ProviderUnavailable)
      ensures AllAvoid(envs, id) && old(ActiveRow(world, id, org) && OnlyDeletedBy(world, id, {})) ==>
                old(world.rows[id].robot).Some?
                && var robot := old(world.rows[id].robot).value;
                   old(Coherent(world, id, robot)) ==>
                     (Coherent(world, id, robot) <==> if calls[0].Answered? then Applied(calls[1]) else !calls[0].applied)
    {
      hide Run, SparesDelete, Avoids;
      if !ActiveRow(world, id, org) { return Err(NotFound); }
      ActiveRowsNameTheirRobot(trace, id);
      if world.rows[id].robot.None? { return Err(Internal); }
      var robot := world.rows[id].robot.value;
      OwnRobot(trace, id);
      Perform(Find(pid, org, id));
      result := RemoveAndDrop(pid, org, id, robot, envs, calls);
    }

    /** The part of the delete that writes. */
    method RemoveAndDrop(pid: nat, org: string, id: Id, robot: Robot, envs: seq<seq<Action>>, calls: seq<Call>)
      returns (result: Result<Robot, RequestError>)
      requires Valid() && pid in world.deletes && world.deletes[pid] == Delete(org, id, robot, Removing, false)
      requires ActiveRow(world, id, org) && world.rows[id].robot == Some(robot)
      requires robot in world.issued && world.issued[robot] == id
      requires |envs| == 2 && |calls| == 2 && forall i :: 0 <= i < 2 ==> SparesDelete(envs[i], pid)
      modifies this
      ensures Valid() && old(trace) <= trace && world != old(world)
      ensures result.Ok? ==> result.value == robot
      ensures calls[0].Answered? && calls[1].Answered? ==>
                (result.Ok? || result == Err(NotFound)) && id !in world.rows && robot !in world.robots
      ensures !(calls[0].Answered? && calls[1].Answered?) ==>
                result == Err(if calls[0].Answered? then StoreFailed else ProviderUnavailable)
      ensures AllAvoid(envs, id) && old(OnlyDeletedBy(world, id, {pid}) && robot in world.robots) ==>
                (Coherent(world, id, robot) <==> if calls[0].Answered? then Applied(calls[1]) else !calls[0].applied)
    {
      hide Run, SparesDelete, Avoids, OnlyDeletedBy;
      SparesMeans(envs[0], pid);
      SparesMeans(envs[1], pid);
      RunSparesDelete(world, envs[0], pid);
      Undisturbed(trace, envs[0], id, robot, {pid});
      Interfere(envs[0]);
      ghost var mid := world;
      Perform(Remove(pid, calls[0]));
      OwnDelete(mid, world, id, pid);
      if !calls[0].Answered? { return Err(ProviderUnavailable); }
      RunSparesDelete(world, envs[1], pid);
      Undisturbed(trace, envs[1], id, robot, {pid});
      Interfere(envs[1]);
      var found := ActiveRow(world, id, org);
      if !found { NotFoundMeansGone(trace, pid); }
      Perform(Drop(pid, calls[1]));
      if !calls[1].Answered? { return Err(StoreFailed); }
      if !found { return Err(NotFound); }
      DeletedMeansGone(trace, pid);
      result := Ok(robot);
    }
  }

  lemma KeepsDeletes(w: World, w': World, id: Id)
    requires w'.deletes == w.deletes
    ensures OnlyDeletedBy(w, id, {}) <==> OnlyDeletedBy(w', id, {})
  {
  }

  lemma OwnDelete(w: World, w': World, id: Id, pid: nat)
    requires pid in w.deletes && pid in w'.deletes && w'.deletes == w.deletes[pid := w'.deletes[pid]]
    ensures OnlyDeletedBy(w, id, {pid}) ==> OnlyDeletedBy(w', id, {pid})
  {
  }

  lemma SparesMeans(env: seq<Action>, pid: nat)
    requires SparesDelete(env, pid)
    ensures NotBy(env, {pid})
  {
  }

  /** The robot of a create, and the one an active row names, was made for this very credential. */
  lemma OwnRobot(actions: seq<Action>, id: Id)
    ensures var w := Run(EMPTY, actions);
            && (id in w.creates && w.creates[id].robot.Some? ==>
                  w.creates[id].robot.value in w.issued && w.issued[w.creates[id].robot.value] == id)
            && (id in w.rows && w.rows[id].active && w.rows[id].robot.Some? ==>
                  w.rows[id].robot.value in w.issued && w.issued[w.rows[id].robot.value] == id)
  {
    hide Run;
    RunPreserves(actions);
    assert CredentialOk(Run(EMPTY, actions), id);
  }
}
