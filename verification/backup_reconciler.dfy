/**
The backup reconcilers. Each claims a batch of rows and works through its snapshots: it rewrites the
row to rotate it, then either asks the provider about the backup, or, for a row whose deletion was
requested, deletes it at the provider and releases the row. Any number of reconcilers run at once on
stale snapshots, any write may fail, and a reconciler may stop anywhere.
*/
module BackupReconciler {
  import opened Outcomes
  import opened Json
  import opened BackupStatus

  type Id = string

  datatype Row = Row(phase: string, status: Value, deleteRequested: bool, deletedAt: Option<int>)

  datatype Snapshot = Snapshot(id: Id, row: Row)

  datatype Failure = ProviderStatus(code: int) | Unreachable

  /** Where a reconciler is with the first backup of its queue. */
  datatype Stage = Rotating | Checking | Erasing | Releasing | Asking | Writing(phase: string, status: Value)

  /**
  The last four are positions in the run: of the claim, of the last question about a backup, and of the
  two answers a release needs.
  */
  datatype Pass = Pass(
    round: nat, queue: seq<Snapshot>, stage: Stage, claimed: nat, asked: nat, checked: nat, confirmed: nat)

  datatype Evidence = Evidence(pid: nat, checked: nat, confirmed: nat)

  datatype World = World(
    rows: map<Id, Row>,
    restoring: set<Id>,
    passes: map<nat, Pass>,
    releases: map<Id, Evidence>,
    steps: nat)

  datatype Action =
    | Request(id: Id)
    | RequestDelete(id: Id)
    | Expire(id: Id)
    | SetRestoring(id: Id, pending: bool)
    | Claim(pid: nat, ids: seq<Id>, now: int)
    | Rotate(pid: nat, rotated: bool)
    | CheckRestore(pid: nat, read: Option<bool>)
    | Erase(pid: nat, erased: Result<Value, Failure>)
    | Release(pid: nat, released: bool, at: int)
    | Ask(pid: nat, report: Result<Value, Failure>, verifiedAt: string)
    | Write(pid: nat, written: bool)
    | Stop(pid: nat)

  const DAY: int := 86_400
  const EMPTY := World(map[], {}, map[], map[], 0)
  const NO_STATUS: Value := Obj(map[])

  // ---------------------------------------------------------------- the store's statements

  /** A status update never moves a row out of deletion. */
  function UpdateStatus(row: Row, phase: string, status: Value): Row {
    row.(phase := if row.deletedAt.Some? then "deleted" else if row.deleteRequested then "deleting" else phase,
         status := status)
  }

  function ReleaseRow(row: Row, at: int): Row {
    if !row.deleteRequested then row
    else row.(phase := "deleted", status := NO_STATUS, deletedAt := if row.deletedAt.Some? then row.deletedAt else Some(at))
  }

  function DeletionRequested(row: Row): Row {
    if row.phase == "deleted" then row else row.(deleteRequested := true, phase := "deleting")
  }

  /** Retention only expires ready backups. */
  function Expired(row: Row): Row {
    if row.phase == "ready" && !row.deleteRequested then row.(deleteRequested := true, phase := "deleting") else row
  }

  predicate Claimable(w: World, ids: seq<Id>, now: int) {
    && |ids| <= 32
    && (forall i, j :: 0 <= i < j < |ids| ==> ids[i] != ids[j])
    && (forall i :: 0 <= i < |ids| ==>
          ids[i] in w.rows && (w.rows[ids[i]].deletedAt.Some? ==> w.rows[ids[i]].deletedAt.value > now - DAY))
  }

  // ---------------------------------------------------------------- one reconciler

  /** Setting a member of an object; `null` becomes one. */
  function With(v: Value, key: string, member: Value): Value {
    if v.Obj? then Obj(v.fields[key := member]) else Obj(map[key := member])
  }

  predicate Unavailable(code: int) {
    code == 400 || code == 403 || code == 404 || code == 409
  }

  function Validated(id: Id, report: Result<Value, Failure>): Result<Value, Failure> {
    match report
    case Err(e) => Err(e)
    case Ok(v) =>
      match ValidatedStatus(id, v)
      case Ok(status) => Ok(status)
      case Err(code) => Err(ProviderStatus(code))
  }

  /** What a reconciler decides to write after asking the provider. */
  function Decide(s: Snapshot, report: Result<Value, Failure>, verifiedAt: string): Stage {
    match Validated(s.id, report)
    case Ok(status) =>
      Writing(if At(status, "phase").Str? then At(status, "phase").s else "error",
              With(With(status, "last_verified_at", Str(verifiedAt)), "provider_unavailable", Bool(false)))
    case Err(e) =>
      if e.ProviderStatus? && Unavailable(e.code)
      then Writing("error", Obj(map["message" := Str("backup_source_unavailable")]))
      else Writing(s.row.phase, With(s.row.status, "provider_unavailable", Bool(true)))
  }

  lemma DecideWrites(s: Snapshot, report: Result<Value, Failure>, verifiedAt: string)
    ensures Decide(s, report, verifiedAt).Writing?
  {
    hide Validated, With;
  }

  /** The answer is a report about this backup, in a phase the provider may report. */
  predicate Reports(id: Id, v: Value) {
    && v.Obj? && "id" in v.fields && v.fields["id"] == Str(id) && "phase" in v.fields
    && (v.fields["phase"] == Str("pending") || v.fields["phase"] == Str("creating") || v.fields["phase"] == Str("ready")
        || v.fields["phase"] == Str("error") || v.fields["phase"] == Str("deleting"))
  }

  /**
  What is written after each kind of answer. A report sets the phase, and what is safe of it with the time
  and without the flag. A refusal of this backup is an error. Anything else, also a report about something
  else, leaves the phase and only sets the flag.
  */
  lemma DecisionsExactly(s: Snapshot, report: Result<Value, Failure>, verifiedAt: string)
    requires s.row.status.Obj?
    ensures match report
            case Ok(v) =>
              if Reports(s.id, v)
              then && ValidatedStatus(s.id, v).Ok? && ValidatedStatus(s.id, v).value.Obj?
                   && Decide(s, report, verifiedAt) ==
                      Writing(v.fields["phase"].s,
                              Obj(ValidatedStatus(s.id, v).value.fields[
                                "last_verified_at" := Str(verifiedAt)]["provider_unavailable" := Bool(false)]))
              else Decide(s, report, verifiedAt) ==
                   Writing(s.row.phase, Obj(s.row.status.fields["provider_unavailable" := Bool(true)]))
            case Err(ProviderStatus(code)) =>
              if code == 400 || code == 403 || code == 404 || code == 409
              then Decide(s, report, verifiedAt) == Writing("error", Obj(map["message" := Str("backup_source_unavailable")]))
              else Decide(s, report, verifiedAt) ==
                   Writing(s.row.phase, Obj(s.row.status.fields["provider_unavailable" := Bool(true)]))
            case Err(Unreachable) =>
              Decide(s, report, verifiedAt) ==
              Writing(s.row.phase, Obj(s.row.status.fields["provider_unavailable" := Bool(true)]))
  {
    hide ValidatedVerification, Message;
  }

  /** The action is one of this reconciler's. */
  predicate By(pid: nat, a: Action) {
    !a.Request? && !a.RequestDelete? && !a.Expire? && !a.SetRestoring? && a.pid == pid
  }

  predicate Busy(w: World, pid: nat) {
    pid in w.passes && w.passes[pid].queue != []
  }

  predicate AtStage(w: World, pid: nat, stage: Stage) {
    Busy(w, pid) && w.passes[pid].stage == stage
  }

  function Head(w: World, pid: nat): Snapshot
    requires Busy(w, pid)
  {
    w.passes[pid].queue[0]
  }

  function SetPass(w: World, pid: nat, p: Pass): World {
    w.(passes := w.passes[pid := p])
  }

  function Advance(p: Pass): Pass
    requires p.queue != []
  {
    p.(queue := p.queue[1..], stage := Rotating)
  }

  function SetRow(w: World, id: Id, row: Row): World {
    w.(rows := w.rows[id := row])
  }

  function ClaimStep(w: World, pid: nat, ids: seq<Id>, now: int): World {
    if Busy(w, pid) || !Claimable(w, ids, now) then w
    else
      SetPass(w, pid,
        Pass(if pid in w.passes then w.passes[pid].round + 1 else 0,
             seq(|ids|, i requires 0 <= i < |ids| && ids[i] in w.rows => Snapshot(ids[i], w.rows[ids[i]])), Rotating,
             w.steps, 0, 0, 0))
  }

  /** A batch is at most 32 different rows, none released a day ago or longer, each as it is stored now. */
  lemma ClaimsExactly(w: World, pid: nat, ids: seq<Id>, now: int)
    requires !Busy(w, pid)
    ensures var w' := ClaimStep(w, pid, ids, now);
            if && |ids| <= 32 && (forall i, j :: 0 <= i < |ids| && 0 <= j < |ids| && ids[i] == ids[j] ==> i == j)
               && (forall i :: 0 <= i < |ids| ==>
                     ids[i] in w.rows && (w.rows[ids[i]].deletedAt == None || now - w.rows[ids[i]].deletedAt.value < 86_400))
            then && pid in w'.passes && w'.passes[pid].stage == Rotating && |w'.passes[pid].queue| == |ids|
                 && (forall i :: 0 <= i < |ids| ==> w'.passes[pid].queue[i] == Snapshot(ids[i], w.rows[ids[i]]))
                 && w'.rows == w.rows
            else w' == w
  {
  }

  function RotateStep(w: World, pid: nat, rotated: bool): World {
    if !AtStage(w, pid, Rotating) then w
    else
      var s := Head(w, pid);
      SetPass(if rotated && s.id in w.rows then SetRow(w, s.id, UpdateStatus(w.rows[s.id], s.row.phase, s.row.status)) else w,
              pid, w.passes[pid].(stage := if s.row.deleteRequested then Checking else Asking))
  }

  /** A failed read counts as a pending restore. */
  function CheckRestoreStep(w: World, pid: nat, read: Option<bool>): World {
    if !AtStage(w, pid, Checking) then w
    else
      var p := w.passes[pid];
      if read == Some(false) && Head(w, pid).id !in w.restoring
      then SetPass(w, pid, p.(stage := Erasing, checked := w.steps))
      else if read == Some(false) then w
      else SetPass(w, pid, Advance(p))
  }

  predicate SaysDeleted(answer: Result<Value, Failure>) {
    answer.Ok? && At(answer.value, "deleted") == Bool(true)
  }

  /** What the reconciler takes for a confirmation is that answer and no other. */
  lemma SaysDeletedExactly(answer: Result<Value, Failure>)
    ensures SaysDeleted(answer) <==>
            match answer
            case Ok(Obj(fields)) => "deleted" in fields && fields["deleted"] == Bool(true)
            case _ => false
  {
  }

  function EraseStep(w: World, pid: nat, answer: Result<Value, Failure>): World {
    if !AtStage(w, pid, Erasing) then w
    else if SaysDeleted(answer) then SetPass(w, pid, w.passes[pid].(stage := Releasing, confirmed := w.steps))
    else SetPass(w, pid, Advance(w.passes[pid]))
  }

  function ReleaseStep(w: World, pid: nat, released: bool, at: int): World {
    if !AtStage(w, pid, Releasing) then w
    else
      var id, p := Head(w, pid).id, w.passes[pid];
      var done :=
        if released && id in w.rows
        then SetRow(w, id, ReleaseRow(w.rows[id], at))
               .(releases := if id in w.releases then w.releases else w.releases[id := Evidence(pid, p.checked, p.confirmed)])
        else w;
      SetPass(done, pid, Advance(p))
  }

  function AskStep(w: World, pid: nat, report: Result<Value, Failure>, verifiedAt: string): World {
    if !AtStage(w, pid, Asking) then w
    else SetPass(w, pid, w.passes[pid].(stage := Decide(Head(w, pid), report, verifiedAt), asked := w.steps))
  }

  function WriteStep(w: World, pid: nat, written: bool): World {
    if !Busy(w, pid) || !w.passes[pid].stage.Writing? then w
    else
      var id, p := Head(w, pid).id, w.passes[pid];
      SetPass(if written && id in w.rows then SetRow(w, id, UpdateStatus(w.rows[id], p.stage.phase, p.stage.status)) else w,
              pid, Advance(p))
  }

  function StopStep(w: World, pid: nat): World {
    if pid in w.passes then SetPass(w, pid, w.passes[pid].(queue := [], stage := Rotating)) else w
  }

  function RequestStep(w: World, id: Id): World {
    if id in w.rows then w else SetRow(w, id, Row("pending", NO_STATUS, false, None))
  }

  function RowStep(w: World, id: Id, change: Row -> Row): World {
    if id in w.rows then SetRow(w, id, change(w.rows[id])) else w
  }

  function Effect(w: World, a: Action): World {
    match a
    case Request(id) => RequestStep(w, id)
    case RequestDelete(id) => RowStep(w, id, DeletionRequested)
    case Expire(id) => RowStep(w, id, Expired)
    case SetRestoring(id, pending) => w.(restoring := if pending then w.restoring + {id} else w.restoring - {id})
    case Claim(pid, ids, now) => ClaimStep(w, pid, ids, now)
    case Rotate(pid, rotated) => RotateStep(w, pid, rotated)
    case CheckRestore(pid, read) => CheckRestoreStep(w, pid, read)
    case Erase(pid, answer) => EraseStep(w, pid, answer)
    case Release(pid, released, at) => ReleaseStep(w, pid, released, at)
    case Ask(pid, report, verifiedAt) => AskStep(w, pid, report, verifiedAt)
    case Write(pid, written) => WriteStep(w, pid, written)
    case Stop(pid) => StopStep(w, pid)
  }

  function Step(w: World, a: Action): World {
    Effect(w, a).(steps := w.steps + 1)
  }

  /**
  What others do to a backup: a new request is pending, a deletion is requested unless it is done, only a
  ready backup expires, a restore comes and goes, and a reconciler that stops forgets its batch.
  */
  lemma OthersTakeEffect(w: World, id: Id, pending: bool, pid: nat)
    ensures var rows := Step(w, Request(id)).rows;
            rows == if id in w.rows then w.rows else w.rows[id := Row("pending", Obj(map[]), false, None)]
    ensures var rows := Step(w, RequestDelete(id)).rows;
            if id in w.rows && w.rows[id].phase != "deleted"
            then rows == w.rows[id := Row("deleting", w.rows[id].status, true, w.rows[id].deletedAt)]
            else rows == w.rows
    ensures var rows := Step(w, Expire(id)).rows;
            if id in w.rows && w.rows[id].phase == "ready" && !w.rows[id].deleteRequested
            then rows == w.rows[id := Row("deleting", w.rows[id].status, true, w.rows[id].deletedAt)]
            else rows == w.rows
    ensures forall k :: k in Step(w, SetRestoring(id, pending)).restoring <==> if k == id then pending else k in w.restoring
    ensures !Busy(Step(w, Stop(pid)), pid) && Step(w, Stop(pid)).rows == w.rows
  {
  }

  /** The reading of a pending restore: a failed one counts as pending, and none is ever read as absent while there. */
  lemma RestoresTakeEffect(w: World, pid: nat, read: Option<bool>)
    requires AtStage(w, pid, Checking)
    ensures var p, p' := w.passes[pid], Step(w, CheckRestore(pid, read)).passes[pid];
            if read != Some(false) then p'.queue == p.queue[1..] && p'.stage == Rotating
            else if Head(w, pid).id in w.restoring then p' == p
            else p'.queue == p.queue && p'.stage == Erasing
  {
  }

  function Run(w: World, actions: seq<Action>): World
    decreases |actions|
  {
    if actions == [] then w else Step(Run(w, actions[..|actions| - 1]), actions[|actions| - 1])
  }

  // ---------------------------------------------------------------- invariant

  /** Deletion is two flags and a phase that agree, and the status holds nothing unsafe. */
  ghost predicate RowOk(id: Id, row: Row) {
    && Sanitised(id, row.status)
    && (row.deletedAt.Some? ==> row.deleteRequested)
    && (if row.deletedAt.Some? then row.phase == "deleted"
        else if row.deleteRequested then row.phase == "deleting"
        else row.phase in REPORTED_PHASES)
  }

  /** Deletion only moves forward, and the time of release is never rewritten. */
  predicate Forward(row: Row, later: Row) {
    && (row.deleteRequested ==> later.deleteRequested)
    && (row.deletedAt.Some? ==> later.deletedAt == row.deletedAt)
  }

  ghost predicate SnapshotOk(w: World, s: Snapshot) {
    s.id in w.rows && RowOk(s.id, s.row) && Forward(s.row, w.rows[s.id])
  }

  ghost predicate StageOk(s: Snapshot, stage: Stage) {
    match stage
    case Rotating => true
    case Asking => !s.row.deleteRequested
    case Writing(phase, status) => phase in REPORTED_PHASES && Sanitised(s.id, status)
    case _ => s.row.deleteRequested
  }

  ghost predicate PassOk(w: World, p: Pass) {
    && (forall i :: 0 <= i < |p.queue| ==> SnapshotOk(w, p.queue[i]))
    && (p.queue != [] ==> StageOk(p.queue[0], p.stage))
  }

  ghost predicate Inv(w: World) {
    && (forall id :: id in w.rows ==> RowOk(id, w.rows[id]))
    && (forall pid :: pid in w.passes ==> PassOk(w, w.passes[pid]))
  }

  ghost predicate RowsForward(w: World, w': World) {
    forall id :: id in w.rows ==> id in w'.rows && Forward(w.rows[id], w'.rows[id])
  }

  lemma PassKept(w: World, w': World, p: Pass)
    requires PassOk(w, p) && RowsForward(w, w')
    ensures PassOk(w', p)
  {
    hide RowOk, StageOk;
    forall i | 0 <= i < |p.queue| ensures SnapshotOk(w', p.queue[i]) {
      assert SnapshotOk(w, p.queue[i]);
    }
  }

  /** A step that changes one row forward, and at most one pass, keeps the invariant. */
  lemma OneRowChanged(w: World, w': World, id: Id, pid: nat)
    requires Inv(w)
    requires id in w'.rows && RowOk(id, w'.rows[id]) && w'.rows == w.rows[id := w'.rows[id]]
    requires id in w.rows ==> Forward(w.rows[id], w'.rows[id])
    requires w'.passes == w.passes
          || (pid in w'.passes && w'.passes == w.passes[pid := w'.passes[pid]] && PassOk(w, w'.passes[pid]))
    ensures Inv(w') && RowsForward(w, w')
  {
    hide RowOk, PassOk;
    assert RowsForward(w, w');
    forall q | q in w'.passes ensures PassOk(w', w'.passes[q]) {
      PassKept(w, w', w'.passes[q]);
    }
  }

  lemma OnePassChanged(w: World, w': World, pid: nat)
    requires Inv(w) && w'.rows == w.rows
    requires w'.passes == w.passes
          || (pid in w'.passes && w'.passes == w.passes[pid := w'.passes[pid]] && PassOk(w, w'.passes[pid]))
    ensures Inv(w') && RowsForward(w, w')
  {
    hide RowOk, PassOk;
    assert RowsForward(w, w');
    forall q | q in w'.passes ensures PassOk(w', w'.passes[q]) {
      PassKept(w, w', w'.passes[q]);
    }
  }

  lemma AdvanceOk(w: World, p: Pass)
    requires PassOk(w, p) && p.queue != []
    ensures PassOk(w, Advance(p))
  {
    hide SnapshotOk, StageOk;
    forall i | 0 <= i < |p.queue| - 1 ensures SnapshotOk(w, p.queue[1..][i]) {
      assert p.queue[1..][i] == p.queue[i + 1];
    }
    assert p.queue[1..] != [] ==> StageOk(p.queue[1..][0], Rotating) by {
      AnyRotates(p);
    }
  }

  lemma AnyRotates(p: Pass)
    requires p.queue != []
    ensures p.queue[1..] != [] ==> StageOk(p.queue[1..][0], Rotating)
  {
  }

  lemma UpdateKeepsRow(id: Id, row: Row, phase: string, status: Value)
    requires RowOk(id, row) && Sanitised(id, status)
    requires phase in REPORTED_PHASES || row.deleteRequested
    ensures RowOk(id, UpdateStatus(row, phase, status)) && Forward(row, UpdateStatus(row, phase, status))
  {
    hide Sanitised;
  }

  lemma DeletionKeepsRow(id: Id, row: Row, at: int)
    requires RowOk(id, row)
    ensures RowOk(id, DeletionRequested(row)) && Forward(row, DeletionRequested(row))
    ensures RowOk(id, Expired(row)) && Forward(row, Expired(row))
    ensures RowOk(id, ReleaseRow(row, at)) && Forward(row, ReleaseRow(row, at))
  {
    NothingIsSanitised(id);
    hide Sanitised;
  }

  lemma NothingIsSanitised(id: Id)
    ensures Sanitised(id, NO_STATUS)
  {
  }

  lemma WithIsSanitised(id: Id, v: Value, key: string, member: Value)
    requires Sanitised(id, v) && SafeMember(id, key, member)
    ensures Sanitised(id, With(v, key, member))
  {
    hide SafeMember;
  }

  lemma FlagsAreSafe(id: Id, b: bool, verifiedAt: string)
    ensures SafeMember(id, "provider_unavailable", Bool(b)) && SafeMember(id, "last_verified_at", Str(verifiedAt))
    ensures Sanitised(id, Obj(map["message" := Str("backup_source_unavailable")]))
  {
  }

  lemma DecideOk(s: Snapshot, report: Result<Value, Failure>, verifiedAt: string)
    requires RowOk(s.id, s.row) && !s.row.deleteRequested
    ensures StageOk(s, Decide(s, report, verifiedAt))
  {
    hide Sanitised, SafeMember, With, ValidatedStatus, IsReport;
    FlagsAreSafe(s.id, true, verifiedAt);
    FlagsAreSafe(s.id, false, verifiedAt);
    match Validated(s.id, report) {
      case Ok(status) =>
        ValidationIsProjection(s.id, report.value);
        AcceptedPhase(s.id, report.value);
        WithIsSanitised(s.id, status, "last_verified_at", Str(verifiedAt));
        WithIsSanitised(s.id, With(status, "last_verified_at", Str(verifiedAt)), "provider_unavailable", Bool(false));
      case Err(e) =>
        WithIsSanitised(s.id, s.row.status, "provider_unavailable", Bool(true));
    }
  }

  lemma AcceptedPhase(id: Id, v: Value)
    requires ValidatedStatus(id, v).Ok?
    ensures Sanitised(id, ValidatedStatus(id, v).value)
    ensures OneOf(At(ValidatedStatus(id, v).value, "phase"), REPORTED_PHASES)
  {
    AcceptedIsReport(id, v);
  }

  lemma ClaimPreserves(w: World, pid: nat, ids: seq<Id>, now: int)
    requires Inv(w)
    ensures Inv(ClaimStep(w, pid, ids, now)) && RowsForward(w, ClaimStep(w, pid, ids, now))
  {
    hide RowOk;
    var w' := ClaimStep(w, pid, ids, now);
    if !Busy(w, pid) && Claimable(w, ids, now) {
      forall i | 0 <= i < |ids| ensures SnapshotOk(w, w'.passes[pid].queue[i]) {
        assert w'.passes[pid].queue[i] == Snapshot(ids[i], w.rows[ids[i]]);
      }
    }
    OnePassChanged(w, w', pid);
  }

  lemma RotatePreserves(w: World, pid: nat, rotated: bool)
    requires Inv(w)
    ensures Inv(RotateStep(w, pid, rotated)) && RowsForward(w, RotateStep(w, pid, rotated))
  {
    hide Sanitised;
    var w' := RotateStep(w, pid, rotated);
    if AtStage(w, pid, Rotating) {
      var s := Head(w, pid);
      assert SnapshotOk(w, w.passes[pid].queue[0]);
      if rotated {
        UpdateKeepsRow(s.id, w.rows[s.id], s.row.phase, s.row.status);
        OneRowChanged(w, w', s.id, pid);
      } else {
        OnePassChanged(w, w', pid);
      }
    } else {
      OnePassChanged(w, w', pid);
    }
  }

  lemma QuietPreserves(w: World, pid: nat, read: Option<bool>, answer: Result<Value, Failure>)
    requires Inv(w)
    ensures Inv(CheckRestoreStep(w, pid, read)) && RowsForward(w, CheckRestoreStep(w, pid, read))
    ensures Inv(EraseStep(w, pid, answer)) && RowsForward(w, EraseStep(w, pid, answer))
    ensures Inv(StopStep(w, pid)) && RowsForward(w, StopStep(w, pid))
  {
    hide SnapshotOk, SaysDeleted;
    if Busy(w, pid) {
      AdvanceOk(w, w.passes[pid]);
    }
    OnePassChanged(w, CheckRestoreStep(w, pid, read), pid);
    OnePassChanged(w, EraseStep(w, pid, answer), pid);
    OnePassChanged(w, StopStep(w, pid), pid);
  }

  lemma ReleasePreserves(w: World, pid: nat, released: bool, at: int)
    requires Inv(w)
    ensures Inv(ReleaseStep(w, pid, released, at)) && RowsForward(w, ReleaseStep(w, pid, released, at))
  {
    hide StageOk, RowOk;
    var w' := ReleaseStep(w, pid, released, at);
    if AtStage(w, pid, Releasing) {
      var id := Head(w, pid).id;
      assert SnapshotOk(w, w.passes[pid].queue[0]);
      AdvanceOk(w, w.passes[pid]);
      DeletionKeepsRow(id, w.rows[id], at);
      if released { OneRowChanged(w, w', id, pid); } else { OnePassChanged(w, w', pid); }
    } else {
      OnePassChanged(w, w', pid);
    }
  }

  lemma AskPreserves(w: World, pid: nat, report: Result<Value, Failure>, verifiedAt: string)
    requires Inv(w)
    ensures Inv(AskStep(w, pid, report, verifiedAt)) && RowsForward(w, AskStep(w, pid, report, verifiedAt))
  {
    hide Sanitised, Decide;
    if AtStage(w, pid, Asking) {
      assert SnapshotOk(w, w.passes[pid].queue[0]);
      DecideOk(Head(w, pid), report, verifiedAt);
    }
    OnePassChanged(w, AskStep(w, pid, report, verifiedAt), pid);
  }

  lemma WritePreserves(w: World, pid: nat, written: bool)
    requires Inv(w)
    ensures Inv(WriteStep(w, pid, written)) && RowsForward(w, WriteStep(w, pid, written))
  {
    hide Sanitised, RowOk;
    var w' := WriteStep(w, pid, written);
    if Busy(w, pid) && w.passes[pid].stage.Writing? {
      var id, p := Head(w, pid).id, w.passes[pid];
      assert SnapshotOk(w, p.queue[0]);
      AdvanceOk(w, p);
      UpdateKeepsRow(id, w.rows[id], p.stage.phase, p.stage.status);
      if written { OneRowChanged(w, w', id, pid); } else { OnePassChanged(w, w', pid); }
    } else {
      OnePassChanged(w, w', pid);
    }
  }

  lemma UserPreserves(w: World, a: Action)
    requires Inv(w) && (a.Request? || a.RequestDelete? || a.Expire? || a.SetRestoring?)
    ensures Inv(Effect(w, a)) && RowsForward(w, Effect(w, a))
  {
    hide Sanitised, PassOk;
    NothingIsSanitised(a.id);
    if a.id in w.rows {
      DeletionKeepsRow(a.id, w.rows[a.id], 0);
    }
    if a.SetRestoring? || (a.Request? && a.id in w.rows) || (!a.Request? && a.id !in w.rows) {
      OnePassChanged(w, Effect(w, a), 0);
    } else {
      OneRowChanged(w, Effect(w, a), a.id, 0);
    }
  }

  lemma StepPreserves(w: World, a: Action)
    requires Inv(w)
    ensures Inv(Step(w, a)) && RowsForward(w, Step(w, a))
  {
    hide Inv, RowsForward, RequestStep, RowStep, ClaimStep, RotateStep, CheckRestoreStep, EraseStep, ReleaseStep, AskStep,
         WriteStep, StopStep;
    match a {
      case Claim(pid, ids, now) => ClaimPreserves(w, pid, ids, now);
      case Rotate(pid, rotated) => RotatePreserves(w, pid, rotated);
      case CheckRestore(pid, read) => QuietPreserves(w, pid, read, Err(Unreachable));
      case Erase(pid, answer) => QuietPreserves(w, pid, None, answer);
      case Release(pid, released, at) => ReleasePreserves(w, pid, released, at);
      case Ask(pid, report, verifiedAt) => AskPreserves(w, pid, report, verifiedAt);
      case Write(pid, written) => WritePreserves(w, pid, written);
      case Stop(pid) => QuietPreserves(w, pid, None, Err(Unreachable));
      case _ => UserPreserves(w, a);
    }
    StepsDoNotMatter(w, Effect(w, a), w.steps + 1);
  }

  lemma StepsDoNotMatter(w: World, w': World, n: nat)
    requires Inv(w') && RowsForward(w, w')
    ensures Inv(w'.(steps := n)) && RowsForward(w, w'.(steps := n))
  {
    hide RowOk, StageOk;
    var x := w'.(steps := n);
    forall pid | pid in x.passes ensures PassOk(x, x.passes[pid]) {
      PassKept(w', x, x.passes[pid]);
    }
  }

  /** Every run keeps the invariant, and every row only moves forward in it. */
  lemma {:induction false} RunPreserves(w: World, actions: seq<Action>)
    requires Inv(w)
    ensures Inv(Run(w, actions)) && RowsForward(w, Run(w, actions))
    decreases |actions|
  {
    hide Step, Inv;
    if actions != [] {
      var before, a := Run(w, actions[..|actions| - 1]), actions[|actions| - 1];
      RunPreserves(w, actions[..|actions| - 1]);
      StepPreserves(before, a);
      forall id | id in w.rows ensures id in Step(before, a).rows && Forward(w.rows[id], Step(before, a).rows[id]) {
        assert id in before.rows && Forward(w.rows[id], before.rows[id]);
      }
    }
  }

  // ---------------------------------------------------------------- every run

  /** Whatever the reconcilers do, what is stored about a backup is safe, and its phase agrees with its deletion. */
  lemma StatusesAreSafe(actions: seq<Action>, id: Id)
    requires id in Run(EMPTY, actions).rows
    ensures var row := Run(EMPTY, actions).rows[id];
            && Sanitised(id, row.status)
            && (row.phase == "deleted" <==> row.deletedAt.Some?)
            && (row.phase in REPORTED_PHASES || row.phase == "deleted")
            && (row.deleteRequested ==> row.phase == "deleting" || row.phase == "deleted")
  {
    hide Run, Sanitised;
    RunPreserves(EMPTY, actions);
    assert RowOk(id, Run(EMPTY, actions).rows[id]);
  }

  /** A requested deletion is never withdrawn, and a released row stays released, with its first time of release. */
  lemma DeletionIsFinal(actions: seq<Action>, more: seq<Action>, id: Id)
    requires id in Run(EMPTY, actions).rows && Run(EMPTY, actions).rows[id].deleteRequested
    ensures var row := Run(EMPTY, actions).rows[id];
            var later := Run(Run(EMPTY, actions), more);
            && id in later.rows && later.rows[id].deleteRequested
            && (later.rows[id].phase == "deleting" || later.rows[id].phase == "deleted")
            && (row.deletedAt.Some? ==> later.rows[id].deletedAt == row.deletedAt && later.rows[id].phase == "deleted")
  {
    hide Run, Sanitised;
    RunPreserves(EMPTY, actions);
    RunPreserves(Run(EMPTY, actions), more);
    var later := Run(Run(EMPTY, actions), more);
    assert Forward(Run(EMPTY, actions).rows[id], later.rows[id]);
    assert RowOk(id, later.rows[id]);
  }
}
