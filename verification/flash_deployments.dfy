/**
One Flash service under concurrent control: ordinary edits, deletion, the provisioning worker, any
number of background observers and any number of manual rollbacks, each of which reads and writes
in separate steps.

The database is the row of the service, its revision history and the clock. Every database
transaction is one step. `Run` executes an arbitrary interleaving; `World.log` lists the writes
that bumped the generation, oldest first, and records for each what its author had read.
*/
module FlashDeployments {
  import opened Basics
  import opened Outcomes
  import opened Json
  import opened RollbackSpecs

  // Times are microseconds, the resolution of the database clock.
  const SECOND: int := 1_000_000
  const MINUTE: int := 60_000_000

  datatype State = Provisioning | Updating | Ready | Error | Deleting | Removed

  datatype Phase = Pending | Healthy | Failed | RolledBack

  datatype Service = Service(generation: nat, spec: Spec, state: State)

  datatype Revision = Revision(
    generation: nat,
    spec: Spec,
    principal: Option<int>,
    phase: Phase,
    createdAt: int,
    readyAt: Option<int>,
    activationStartedAt: Option<int>)

  datatype Kind = Edit | Automatic | Manual | Deletion

  /** A generation-bumping write; a rollback also records what it had read. */
  datatype Write = Write(
    kind: Kind,
    generation: nat,
    base: nat,
    target: nat,
    spec: Spec,
    principal: Option<int>,
    at: int)

  datatype Db = Db(now: int, service: Service, revisions: map<nat, Revision>, log: seq<Write>)

  datatype ProviderPhase = ProviderReady | ProviderError | ProviderOther

  datatype Status = Status(
    observedGeneration: Option<nat>,
    phase: ProviderPhase,
    desiredReplicas: nat,
    readyReplicas: nat,
    quotaExhausted: bool)

  // ---------------------------------------------------------------- database transactions

  /** A revision is proved healthy by the application, not by an idle or stopped service. */
  predicate ProvesHealth(service: Service, status: Status) {
    && service.state == Ready
    && status.observedGeneration == Some(service.generation)
    && status.readyReplicas > 0
    && !Stopped(service.spec)
  }

  /** The trigger on the service row: insert or refresh the revision of the current generation. */
  function Capture(db: Db, healthy: bool): Db {
    var s := db.service;
    var phase := if healthy then Healthy else if s.state == Error then Failed else Pending;
    var readyAt := if healthy then Some(db.now) else None;
    var revision :=
      if s.generation in db.revisions then
        var stored := db.revisions[s.generation];
        stored.(phase := if stored.readyAt.Some? then Healthy else phase,
             readyAt := if stored.readyAt.Some? then stored.readyAt else readyAt)
      else Revision(s.generation, s.spec, None, phase, db.now, readyAt, None);
    db.(revisions := db.revisions[s.generation := revision])
  }

  /** What quota, disk and network checks of an update may refuse, with the ports they assign. */
  datatype Checks = Refused | Passed(ports: Option<Value>)

  function WithPorts(spec: Spec, ports: Option<Value>): Spec {
    if ports.Some? then spec["ports" := ports.value] else spec
  }

  predicate UpdateSucceeds(db: Db, expected: Option<nat>, spec: Spec, checks: Checks) {
    && db.service.state != Removed
    && (expected.Some? ==> expected.value == db.service.generation)
    && db.service.state != Deleting
    && checks.Passed?
    && PolicyAccepted(WithPorts(spec, checks.ports))
    && db.service.generation < I64_MAX
  }

  /** The replacement update: specification, generation and revision change in one transaction. */
  function Update(db: Db, spec: Spec, principal: int, ports: Option<Value>): Db {
    var service := Service(db.service.generation + 1, WithPorts(spec, ports), Updating);
    var captured := Capture(db.(service := service), false);
    captured.(revisions := captured.revisions[
      service.generation := captured.revisions[service.generation].(principal := Some(principal))])
  }

  predicate DeleteSucceeds(db: Db) {
    db.service.state != Removed && db.service.state != Deleting && db.service.generation < I64_MAX
  }

  function BeginDelete(db: Db): Db {
    Capture(db.(service := Service(db.service.generation + 1, db.service.spec, Deleting)), false)
  }

  function CompleteDelete(db: Db, generation: nat): Db {
    if db.service.state == Deleting && db.service.generation == generation
    then db.(service := db.service.(state := Removed))
    else db
  }

  /** The worker's outcome of a reconcile event, fenced by the event's generation. */
  function WorkerReport(db: Db, generation: nat, ready: bool, status: Status): Db {
    if db.service.state == Removed || db.service.generation != generation then db
    else
      var service := db.service.(state := if ready then Ready else Error);
      Capture(db.(service := service), ProvesHealth(service, status))
  }

  /** An observation of the instance that was read earlier; a stale one changes nothing. */
  function RecordObservation(db: Db, instance: Service, status: Status): Db {
    if status.observedGeneration != Some(instance.generation) then db
    else if db.service.generation != instance.generation || db.service.state in {Deleting, Removed} then db
    else
      var state := match status.phase case ProviderReady => Ready case ProviderError => Error case ProviderOther => Updating;
      var service := db.service.(state := state);
      var seen := Capture(db.(service := service), ProvesHealth(service, status));
      var revision := seen.revisions[service.generation];
      if status.desiredReplicas > 0 && !Stopped(instance.spec) && revision.activationStartedAt.None? then
        seen.(revisions := seen.revisions[service.generation := revision.(activationStartedAt := Some(seen.now))])
      else seen
  }

  function MarkRolledBack(db: Db, generation: nat): Db {
    if generation in db.revisions && db.revisions[generation].readyAt.None?
    then db.(revisions := db.revisions[generation := db.revisions[generation].(phase := RolledBack)])
    else db
  }

  /** The newest `limit` revisions below `bound`, newest first. */
  function Newest(revisions: map<nat, Revision>, bound: nat, limit: nat): seq<Revision>
    decreases bound
  {
    if bound == 0 || limit == 0 then []
    else if bound - 1 in revisions then [revisions[bound - 1]] + Newest(revisions, bound - 1, limit - 1)
    else Newest(revisions, bound - 1, limit)
  }

  function FirstHealthyBelow(history: seq<Revision>, generation: nat): Option<Revision> {
    if history == [] then None
    else if history[0].generation < generation && history[0].phase == Healthy then Some(history[0])
    else FirstHealthyBelow(history[1..], generation)
  }

  // ---------------------------------------------------------------- controllers

  /** Where one observer or one manual rollback stands, with everything it has read so far. */
  datatype Controller =
    | Idle
    | Listed(instance: Service)
    | Observed(instance: Service)
    | Overdue(instance: Service, current: Revision)
    | Chosen(instance: Service, current: Revision, previous: Revision)
    | Permitted(instance: Service, current: Revision, previous: Revision)
    | Marking(generation: nat)
    | Requested(instance: Service, generation: nat, principal: int)
    | Targeted(instance: Service, previous: Revision, principal: int)

  datatype World = World(db: Db, controllers: map<nat, Controller>)

  datatype Action =
    | Wait(duration: nat)
    | UserEdit(spec: Spec, author: int, editChecks: Checks)
    | UserDelete
    | FinishDelete(deletedGeneration: nat)
    | Report(reported: nat, ready: bool, workerStatus: Status)
    | ListTargets(pid: nat)
    | Observe(pid: nat, status: Option<Status>)
    | ReadCurrent(pid: nat)
    | ReadHistory(pid: nat)
    | Authorize(pid: nat, allowed: bool)
    | FencedRollback(pid: nat, checks: Checks)
    | Mark(pid: nat)
    | RequestRollback(pid: nat, target: nat, expected: nat, requester: int)
    | ReadTarget(pid: nat)
    | FencedManualRollback(pid: nat, checks: Checks)
    | Crash(pid: nat)

  function ControllerOf(w: World, pid: nat): Controller {
    if pid in w.controllers then w.controllers[pid] else Idle
  }

  function Become(w: World, pid: nat, c: Controller): World {
    w.(controllers := w.controllers[pid := c])
  }

  /** Whole seconds, truncated toward zero. */
  function WholeSeconds(duration: int): int {
    if duration >= 0 then duration / SECOND else -((-duration) / SECOND)
  }

  /** When the deadline of a revision starts: its first activation, or its creation unless it scales to zero. */
  function ActivationOf(instance: Service, current: Revision): Option<int> {
    if current.activationStartedAt.Some? then current.activationStartedAt
    else if "autoscaling" in instance.spec && At(instance.spec["autoscaling"], "min_replicas") == Num(0) then None
    else Some(current.createdAt)
  }

  predicate DeadlinePassed(now: int, instance: Service, current: Revision) {
    var policy := PolicyOf(instance.spec);
    var activation := ActivationOf(instance, current);
    && activation.Some?
    && policy.autoRollback
    && current.readyAt.None?
    && WholeSeconds(now - activation.value) >= policy.deadlineSeconds
  }

  function Logged(db: Db, kind: Kind, base: nat, target: nat, principal: Option<int>): Db {
    db.(log := db.log + [Write(kind, db.service.generation, base, target, db.service.spec, principal, db.now)])
  }

  /** A write by an ordinary edit, which carries no expected generation. */
  function ApplyEdit(db: Db, spec: Spec, author: int, checks: Checks): Db {
    if !UpdateSucceeds(db, None, spec, checks) then db
    else Logged(Update(db, spec, author, checks.ports), Edit, 0, 0, Some(author))
  }

  function ApplyDelete(db: Db): Db {
    if !DeleteSucceeds(db) then db else Logged(BeginDelete(db), Deletion, 0, 0, None)
  }

  /** The fenced write shared by both kinds of rollback. */
  function ApplyRollback(
    db: Db, kind: Kind, instance: Service, previous: Revision, principal: int, checks: Checks): Option<Db>
  {
    var spec := Restored(previous.spec, instance.spec);
    if !UpdateSucceeds(db, Some(instance.generation), spec, checks) then None
    else Some(Logged(Update(db, spec, principal, checks.ports), kind,
                     instance.generation, previous.generation, Some(principal)))
  }

  function ObserveStep(w: World, pid: nat, status: Option<Status>): World {
    match ControllerOf(w, pid)
    case Listed(instance) =>
      if status.None? || status.value.observedGeneration != Some(instance.generation) then Become(w, pid, Idle)
      else
        var seen := w.(db := RecordObservation(w.db, instance, status.value));
        if Stopped(instance.spec) || instance.state == Deleting || status.value.quotaExhausted
        then Become(seen, pid, Idle)
        else Become(seen, pid, Observed(instance))
    case _ => w
  }

  function ReadCurrentStep(w: World, pid: nat): World {
    match ControllerOf(w, pid)
    case Observed(instance) =>
      if instance.generation in w.db.revisions
         && DeadlinePassed(w.db.now, instance, w.db.revisions[instance.generation])
      then Become(w, pid, Overdue(instance, w.db.revisions[instance.generation]))
      else Become(w, pid, Idle)
    case _ => w
  }

  function ReadHistoryStep(w: World, pid: nat): World {
    match ControllerOf(w, pid)
    case Overdue(instance, current) =>
      var previous := FirstHealthyBelow(
        Newest(w.db.revisions, w.db.service.generation + 1, 30), instance.generation);
      if previous.Some? && current.principal.Some?
      then Become(w, pid, Chosen(instance, current, previous.value))
      else Become(w, pid, Idle)
    case _ => w
  }

  function AuthorizeStep(w: World, pid: nat, allowed: bool): World {
    match ControllerOf(w, pid)
    case Chosen(instance, current, previous) =>
      Become(w, pid, if allowed then Permitted(instance, current, previous) else Idle)
    case _ => w
  }

  function FencedRollbackStep(w: World, pid: nat, checks: Checks): World {
    match ControllerOf(w, pid)
    case Permitted(instance, current, previous) =>
      if current.principal.None? then Become(w, pid, Idle)
      else
        var written := ApplyRollback(w.db, Automatic, instance, previous, current.principal.value, checks);
        if written.Some? then Become(w.(db := written.value), pid, Marking(instance.generation)) else Become(w, pid, Idle)
    case _ => w
  }

  function RequestStep(w: World, pid: nat, target: nat, expected: nat, requester: int): World {
    if ControllerOf(w, pid) != Idle || w.db.service.state == Removed || w.db.service.generation != expected then w
    else Become(w, pid, Requested(w.db.service, target, requester))
  }

  function ReadTargetStep(w: World, pid: nat): World {
    match ControllerOf(w, pid)
    case Requested(instance, generation, principal) =>
      if generation in w.db.revisions && w.db.revisions[generation].phase == Healthy && generation < instance.generation
      then Become(w, pid, Targeted(instance, w.db.revisions[generation], principal))
      else Become(w, pid, Idle)
    case _ => w
  }

  function ManualRollbackStep(w: World, pid: nat, checks: Checks): World {
    match ControllerOf(w, pid)
    case Targeted(instance, previous, principal) =>
      var written := ApplyRollback(w.db, Manual, instance, previous, principal, checks);
      if written.Some? then Become(w.(db := written.value), pid, Idle) else Become(w, pid, Idle)
    case _ => w
  }

  function Step(w: World, a: Action): World {
    match a
    case Wait(duration) => w.(db := w.db.(now := w.db.now + duration))
    case UserEdit(spec, author, checks) => w.(db := ApplyEdit(w.db, spec, author, checks))
    case UserDelete => w.(db := ApplyDelete(w.db))
    case FinishDelete(generation) => w.(db := CompleteDelete(w.db, generation))
    case Report(generation, ready, status) => w.(db := WorkerReport(w.db, generation, ready, status))
    case ListTargets(pid) =>
      if ControllerOf(w, pid) == Idle && w.db.service.state !in {Deleting, Removed}
      then Become(w, pid, Listed(w.db.service)) else w
    case Observe(pid, status) => ObserveStep(w, pid, status)
    case ReadCurrent(pid) => ReadCurrentStep(w, pid)
    case ReadHistory(pid) => ReadHistoryStep(w, pid)
    case Authorize(pid, allowed) => AuthorizeStep(w, pid, allowed)
    case FencedRollback(pid, checks) => FencedRollbackStep(w, pid, checks)
    case Mark(pid) =>
      (match ControllerOf(w, pid)
       case Marking(generation) => Become(w.(db := MarkRolledBack(w.db, generation)), pid, Idle)
       case _ => w)
    case RequestRollback(pid, target, expected, requester) => RequestStep(w, pid, target, expected, requester)
    case ReadTarget(pid) => ReadTargetStep(w, pid)
    case FencedManualRollback(pid, checks) => ManualRollbackStep(w, pid, checks)
    case Crash(pid) => Become(w, pid, Idle)
  }

  /** Any finite interleaving. */
  function Run(w: World, actions: seq<Action>): World
    decreases |actions|
  {
    if actions == [] then w else Step(Run(w, actions[..|actions| - 1]), actions[|actions| - 1])
  }

  // ---------------------------------------------------------------- invariants

  function First(db: Db): nat
    requires db.log != []
  {
    db.log[0].generation
  }

  function Last(db: Db): Write
    requires db.log != []
  {
    db.log[|db.log| - 1]
  }

  /** The write that produced generation `g`. */
  function Author(db: Db, g: nat): Write
    requires db.log != [] && First(db) <= g < First(db) + |db.log|
  {
    db.log[g - First(db)]
  }

  ghost predicate LogShape(db: Db) {
    && db.log != []
    && db.log[0].kind == Edit
    && (forall i :: 0 <= i < |db.log| ==> db.log[i].generation == First(db) + i)
    && Last(db).at <= db.now
    && Last(db).generation == db.service.generation
    && Last(db).spec == db.service.spec
  }

  predicate RevisionOk(r: Revision, author: Write) {
    && r.generation == author.generation
    && r.spec == author.spec
    && r.principal == author.principal
    && r.createdAt == author.at
    && (r.phase == Healthy <==> r.readyAt.Some?)
    && (r.activationStartedAt.Some? ==> r.createdAt <= r.activationStartedAt.value)
    && PolicyAccepted(r.spec)
  }

  /** Each write has exactly its revision. */
  ghost predicate Sound(db: Db) {
    && LogShape(db)
    && (forall g :: g in db.revisions <==> First(db) <= g <= db.service.generation)
    && (forall g :: g in db.revisions ==> RevisionOk(db.revisions[g], Author(db, g)))
  }

  /** `previous` is a healthy revision older than `generation`. */
  predicate HealthyBelow(db: Db, previous: Revision, generation: nat) {
    && previous.generation < generation
    && previous.generation in db.revisions
    && db.revisions[previous.generation].spec == previous.spec
    && db.revisions[previous.generation].readyAt.Some?
  }

  /** No revision strictly between the two generations is healthy. */
  ghost predicate NoneHealthyBetween(db: Db, low: nat, high: nat) {
    forall g :: low < g < high && g in db.revisions ==> db.revisions[g].readyAt.None?
  }

  predicate InstanceOk(db: Db, instance: Service) {
    && instance.generation <= db.service.generation
    && instance.generation in db.revisions
    && db.revisions[instance.generation].spec == instance.spec
  }

  predicate OverdueOk(db: Db, instance: Service, current: Revision) {
    && InstanceOk(db, instance)
    && PolicyOf(instance.spec).autoRollback
    && current.principal == db.revisions[instance.generation].principal
    && db.now - db.revisions[instance.generation].createdAt >= PolicyOf(instance.spec).deadlineSeconds * SECOND
  }

  ghost predicate ControllerOk(db: Db, c: Controller) {
    match c
    case Idle => true
    case Listed(instance) => InstanceOk(db, instance)
    case Observed(instance) => InstanceOk(db, instance)
    case Overdue(instance, current) => OverdueOk(db, instance, current)
    case Chosen(instance, current, previous) =>
      && OverdueOk(db, instance, current) && HealthyBelow(db, previous, instance.generation)
      && NoneHealthyBetween(db, previous.generation, instance.generation)
    case Permitted(instance, current, previous) =>
      && OverdueOk(db, instance, current) && HealthyBelow(db, previous, instance.generation)
      && NoneHealthyBetween(db, previous.generation, instance.generation)
    case Marking(generation) => true
    case Requested(instance, _, _) => InstanceOk(db, instance)
    case Targeted(instance, previous, _) => InstanceOk(db, instance) && HealthyBelow(db, previous, instance.generation)
  }

  /** `spec` differs from `other` at most in the assigned ports. */
  ghost predicate SameButPorts(spec: Spec, other: Spec) {
    forall key :: key != "ports" ==> Field(spec, key) == Field(other, key)
  }

  /** Entry `i`, a rollback, replaced exactly the generation it had read. */
  ghost predicate RollbackOk(db: Db, i: nat)
    requires Sound(db) && 0 < i < |db.log|
  {
    var e := db.log[i];
    && e.base == db.log[i - 1].generation
    && First(db) <= e.target < e.base
    && db.revisions[e.target].readyAt.Some?
    && SameButPorts(e.spec, Restored(Author(db, e.target).spec, db.log[i - 1].spec))
    && (e.kind == Automatic ==>
          && PolicyOf(db.log[i - 1].spec).autoRollback
          && e.at >= db.log[i - 1].at + PolicyOf(db.log[i - 1].spec).deadlineSeconds * SECOND
          && e.principal == db.log[i - 1].principal
          && NoneHealthyBetween(db, e.target, e.base))
  }

  ghost predicate EntryOk(db: Db, i: nat)
    requires Sound(db) && 0 < i < |db.log|
  {
    && db.log[i - 1].at <= db.log[i].at
    && match db.log[i].kind
       case Edit => true
       case Deletion => db.log[i].spec == db.log[i - 1].spec
       case _ => RollbackOk(db, i)
  }

  ghost predicate EntriesOk(db: Db)
    requires Sound(db)
  {
    forall i :: 0 < i < |db.log| ==> EntryOk(db, i)
  }

  ghost predicate Inv(w: World) {
    && Sound(w.db)
    && EntriesOk(w.db)
    && (forall pid :: pid in w.controllers ==> ControllerOk(w.db, w.controllers[pid]))
  }

  /** How the database may evolve: time and generations grow, history is only appended to, proofs of health stay. */
  ghost predicate Evolves(db: Db, db': Db) {
    && db.now <= db'.now
    && db.log <= db'.log
    && db.service.generation <= db'.service.generation
    && (forall g :: g in db.revisions ==>
          && g in db'.revisions
          && db'.revisions[g].spec == db.revisions[g].spec
          && db'.revisions[g].principal == db.revisions[g].principal
          && db'.revisions[g].createdAt == db.revisions[g].createdAt
          && (db.revisions[g].readyAt.Some? ==> db'.revisions[g].readyAt == db.revisions[g].readyAt)
          && (g < db.service.generation ==> db'.revisions[g].readyAt == db.revisions[g].readyAt))
  }

  /** One transaction: the database stays sound, evolves, and any entry it adds is in order. */
  ghost predicate Transaction(db: Db, db': Db) {
    && Sound(db') && Evolves(db, db')
    && |db'.log| <= |db.log| + 1
    && (0 < |db.log| < |db'.log| ==> EntryOk(db', |db.log|))
  }

  // ---------------------------------------------------------------- what evolution preserves

  lemma NoneHealthyPersists(db: Db, db': Db, low: nat, high: nat)
    requires Sound(db) && Sound(db') && Evolves(db, db')
    requires low in db.revisions && high <= db.service.generation && NoneHealthyBetween(db, low, high)
    ensures NoneHealthyBetween(db', low, high)
  {
    hide PolicyAccepted, PolicyOf, Restored, RevisionOk;
    forall g | low < g < high && g in db'.revisions
      ensures db'.revisions[g].readyAt.None?
    {
      assert g in db.revisions;
    }
  }

  lemma ControllerPersists(db: Db, db': Db, c: Controller)
    requires Sound(db) && Sound(db') && Evolves(db, db')
    requires ControllerOk(db, c)
    ensures ControllerOk(db', c)
  {
    hide PolicyAccepted, PolicyOf, Restored, NoneHealthyBetween, Sound;
    if c.Chosen? || c.Permitted? {
      NoneHealthyPersists(db, db', c.previous.generation, c.instance.generation);
    }
  }

  lemma EntryPersists(db: Db, db': Db, i: nat)
    requires Sound(db) && Sound(db') && Evolves(db, db')
    requires 0 < i < |db.log| && EntryOk(db, i)
    ensures EntryOk(db', i)
  {
    hide PolicyAccepted, PolicyOf, Restored, Field, SameButPorts, NoneHealthyBetween;
    assert db'.log[i] == db.log[i] && db'.log[i - 1] == db.log[i - 1] && db'.log[0] == db.log[0];
    if db.log[i].kind == Automatic || db.log[i].kind == Manual {
      var e := db.log[i];
      assert Author(db', e.target) == Author(db, e.target);
      if e.kind == Automatic {
        NoneHealthyPersists(db, db', e.target, e.base);
      }
    }
  }

  lemma EntriesPersist(db: Db, db': Db)
    requires Sound(db) && EntriesOk(db) && Transaction(db, db')
    ensures EntriesOk(db')
  {
    hide PolicyAccepted, PolicyOf, Restored, EntryOk, Evolves;
    forall i | 0 < i < |db'.log|
      ensures EntryOk(db', i)
    {
      if i < |db.log| {
        EntryPersists(db, db', i);
      }
    }
  }

  /** A transaction, and one controller that moved, keep the invariant. */
  lemma InvByTransaction(w: World, w': World, pid: nat)
    requires Inv(w) && Transaction(w.db, w'.db)
    requires w'.controllers == w.controllers
             || (pid in w'.controllers && w'.controllers == w.controllers[pid := w'.controllers[pid]]
                 && ControllerOk(w'.db, w'.controllers[pid]))
    ensures Inv(w')
  {
    hide PolicyAccepted, PolicyOf, Restored, EntryOk, EntriesOk, Evolves, ControllerOk, Sound;
    EntriesPersist(w.db, w'.db);
    forall p | p in w'.controllers
      ensures ControllerOk(w'.db, w'.controllers[p])
    {
      if p in w.controllers && w'.controllers[p] == w.controllers[p] {
        ControllerPersists(w.db, w'.db, w.controllers[p]);
      }
    }
  }

  // ---------------------------------------------------------------- each transaction

  /** What one revision may become while its generation is not rewritten. */
  predicate Refreshed(before: Revision, after: Revision, current: bool) {
    && after.generation == before.generation && after.spec == before.spec
    && after.principal == before.principal && after.createdAt == before.createdAt
    && (before.readyAt.Some? || !current ==> after.readyAt == before.readyAt)
    && (after.phase == Healthy <==> after.readyAt.Some?)
    && (after.activationStartedAt == before.activationStartedAt
        || (after.activationStartedAt.Some? && after.createdAt <= after.activationStartedAt.value))
  }

  /** Refreshing revisions without writing a new generation. */
  lemma RefreshTransaction(db: Db, db': Db)
    requires Sound(db)
    requires db'.now == db.now && db'.log == db.log
    requires db'.service.generation == db.service.generation && db'.service.spec == db.service.spec
    requires db'.revisions.Keys == db.revisions.Keys
    requires forall g :: g in db'.revisions ==>
               Refreshed(db.revisions[g], db'.revisions[g], g == db.service.generation)
    ensures Transaction(db, db')
  {
    hide PolicyAccepted, PolicyOf, Restored, EntryOk;
    forall g | g in db'.revisions
      ensures RevisionOk(db'.revisions[g], Author(db', g))
    {
      assert RevisionOk(db.revisions[g], Author(db, g));
    }
  }

  lemma UntouchedIsRefreshed(db: Db, g: nat)
    requires Sound(db) && g in db.revisions
    ensures Refreshed(db.revisions[g], db.revisions[g], g == db.service.generation)
    ensures g == db.service.generation ==> db.revisions[g].createdAt <= db.now
  {
    hide PolicyAccepted, PolicyOf;
    assert RevisionOk(db.revisions[g], Author(db, g));
  }

  lemma CaptureTransaction(db: Db, state: State, healthy: bool)
    requires Sound(db)
    ensures Transaction(db, Capture(db.(service := db.service.(state := state)), healthy))
  {
    hide Transaction, RevisionOk, PolicyAccepted;
    var db' := Capture(db.(service := db.service.(state := state)), healthy);
    assert db'.revisions.Keys == db.revisions.Keys;
    forall g | g in db'.revisions
      ensures Refreshed(db.revisions[g], db'.revisions[g], g == db.service.generation)
    {
      UntouchedIsRefreshed(db, g);
    }
    RefreshTransaction(db, db');
  }

  lemma ObservationTransaction(db: Db, instance: Service, status: Status)
    requires Sound(db)
    ensures Transaction(db, RecordObservation(db, instance, status))
  {
    hide Transaction, RevisionOk, PolicyAccepted, Stopped;
    var db' := RecordObservation(db, instance, status);
    assert db'.revisions.Keys == db.revisions.Keys;
    forall g | g in db'.revisions
      ensures Refreshed(db.revisions[g], db'.revisions[g], g == db.service.generation)
    {
      UntouchedIsRefreshed(db, g);
    }
    RefreshTransaction(db, db');
  }

  lemma ReportTransaction(db: Db, generation: nat, ready: bool, status: Status)
    requires Sound(db)
    ensures Transaction(db, WorkerReport(db, generation, ready, status))
  {
    hide PolicyAccepted, PolicyOf, Restored, EntryOk, Sound, ProvesHealth;
    if db.service.state != Removed && db.service.generation == generation {
      var state := if ready then Ready else Error;
      CaptureTransaction(db, state, ProvesHealth(db.service.(state := state), status));
    }
  }

  lemma MarkTransaction(db: Db, generation: nat)
    requires Sound(db)
    ensures Transaction(db, MarkRolledBack(db, generation))
  {
    hide Transaction, RevisionOk, PolicyAccepted;
    var db' := MarkRolledBack(db, generation);
    forall g | g in db'.revisions
      ensures Refreshed(db.revisions[g], db'.revisions[g], g == db.service.generation)
    {
      UntouchedIsRefreshed(db, g);
    }
    RefreshTransaction(db, db');
  }

  /** A successful write appends its log entry and its revision together. */
  lemma WriteEvolves(db: Db, db': Db, e: Write)
    requires Sound(db)
    requires db'.now == db.now && db'.service.generation == db.service.generation + 1
    requires e.generation == db'.service.generation && e.spec == db'.service.spec && e.at == db'.now
    requires PolicyAccepted(e.spec)
    requires db'.log == db.log + [e]
    requires db'.revisions == db.revisions[
               e.generation := Revision(e.generation, e.spec, e.principal, Pending, e.at, None, None)]
    ensures Sound(db') && Evolves(db, db')
  {
    hide PolicyAccepted, PolicyOf, Restored;
    assert LogShape(db');
    forall g | g in db'.revisions
      ensures RevisionOk(db'.revisions[g], Author(db', g))
    {
      if g != e.generation {
        assert Author(db', g) == Author(db, g);
      }
    }
  }

  lemma UpdateEvolves(db: Db, spec: Spec, kind: Kind, base: nat, target: nat, principal: int, ports: Option<Value>)
    requires Sound(db) && PolicyAccepted(WithPorts(spec, ports))
    ensures var db' := Logged(Update(db, spec, principal, ports), kind, base, target, Some(principal));
            Sound(db') && Evolves(db, db')
  {
    hide PolicyAccepted, PolicyOf, Restored, Evolves;
    var db' := Logged(Update(db, spec, principal, ports), kind, base, target, Some(principal));
    assert db.service.generation + 1 !in db.revisions;
    WriteEvolves(db, db', Last(db'));
  }

  lemma EditTransaction(db: Db, spec: Spec, author: int, checks: Checks)
    requires Sound(db)
    ensures Transaction(db, ApplyEdit(db, spec, author, checks))
  {
    hide PolicyAccepted, PolicyOf, Restored, Evolves;
    if UpdateSucceeds(db, None, spec, checks) {
      UpdateEvolves(db, spec, Edit, 0, 0, author, checks.ports);
    } else {
      QuietTransaction(db, db);
    }
  }

  lemma DeleteTransaction(db: Db)
    requires Sound(db)
    ensures Transaction(db, ApplyDelete(db))
  {
    hide PolicyAccepted, PolicyOf, Restored;
    if DeleteSucceeds(db) {
      var db' := ApplyDelete(db);
      var g := db.service.generation;
      assert RevisionOk(db.revisions[g], Author(db, g));
      assert g + 1 !in db.revisions;
      WriteEvolves(db, db', Last(db'));
      assert db'.log[|db.log| - 1] == Last(db);
    }
  }

  /** A fenced write that succeeds replaces the very generation its author had read. */
  lemma RollbackTransaction(
    db: Db, kind: Kind, instance: Service, current: Revision, previous: Revision, principal: int, checks: Checks)
    requires Sound(db) && (kind == Automatic || kind == Manual)
    requires InstanceOk(db, instance) && HealthyBelow(db, previous, instance.generation)
    requires kind == Automatic ==>
               && NoneHealthyBetween(db, previous.generation, instance.generation)
               && OverdueOk(db, instance, current) && current.principal == Some(principal)
    requires ApplyRollback(db, kind, instance, previous, principal, checks).Some?
    ensures Transaction(db, ApplyRollback(db, kind, instance, previous, principal, checks).value)
  {
    hide PolicyAccepted, PolicyOf, Restored, Sound, Evolves, NoneHealthyBetween, EntryOk, OverdueOk;
    var spec := Restored(previous.spec, instance.spec);
    UpdateEvolves(db, spec, kind, instance.generation, previous.generation, principal, checks.ports);
    var db' := ApplyRollback(db, kind, instance, previous, principal, checks).value;
    RollbackEntry(db, db', kind, instance, current, previous, principal, checks);
  }

  lemma RollbackEntry(
    db: Db, db': Db, kind: Kind, instance: Service, current: Revision, previous: Revision, principal: int, checks: Checks)
    requires Sound(db) && Sound(db') && Evolves(db, db') && (kind == Automatic || kind == Manual)
    requires InstanceOk(db, instance) && HealthyBelow(db, previous, instance.generation)
    requires instance.generation == db.service.generation
    requires kind == Automatic ==>
               && NoneHealthyBetween(db, previous.generation, instance.generation)
               && OverdueOk(db, instance, current) && current.principal == Some(principal)
    requires checks.Passed? && db'.now == db.now
    requires db'.log == db.log + [Write(kind, db.service.generation + 1, instance.generation, previous.generation,
               WithPorts(Restored(previous.spec, instance.spec), checks.ports), Some(principal), db'.now)]
    ensures EntryOk(db', |db.log|)
  {
    hide PolicyAccepted, PolicyOf;
    var i := |db.log|;
    var e := db'.log[i];
    assert db'.log[i - 1] == Last(db) && db'.log[0] == db.log[0];
    assert RevisionOk(db.revisions[previous.generation], Author(db, previous.generation));
    assert RevisionOk(db.revisions[instance.generation], Last(db));
    assert Author(db', e.target) == Author(db, e.target);
    assert previous.spec == Author(db', e.target).spec && instance.spec == db'.log[i - 1].spec;
    assert SameButPorts(e.spec, Restored(previous.spec, instance.spec));
    if kind == Automatic {
      NoneHealthyPersists(db, db', e.target, e.base);
    }
  }

  /** The stored generations from `low` up to, but not including, `bound`. */
  function Stored(revisions: map<nat, Revision>, low: nat, bound: nat): set<nat> {
    set g | low <= g < bound && g in revisions
  }

  ghost predicate ByGeneration(revisions: map<nat, Revision>) {
    forall g :: g in revisions ==> revisions[g].generation == g
  }

  lemma StoredBelow(revisions: map<nat, Revision>, low: nat, bound: nat)
    requires low < bound
    ensures |Stored(revisions, low, bound)| == |Stored(revisions, low, bound - 1)| + (if bound - 1 in revisions then 1 else 0)
  {
    var all, rest := Stored(revisions, low, bound), Stored(revisions, low, bound - 1);
    assert all == if bound - 1 in revisions then rest + {bound - 1} else rest;
  }

  predicate IsStored(revisions: map<nat, Revision>, r: Revision) {
    r.generation in revisions && revisions[r.generation] == r
  }

  /** Stored revisions below the bound, newest first. */
  ghost predicate Descends(revisions: map<nat, Revision>, bound: nat, listed: seq<Revision>) {
    && (forall i :: 0 <= i < |listed| ==> IsStored(revisions, listed[i]) && listed[i].generation < bound)
    && (forall i, j :: 0 <= i < j < |listed| ==> listed[i].generation > listed[j].generation)
  }

  lemma {:induction false} NewestDescends(revisions: map<nat, Revision>, bound: nat, limit: nat)
    requires ByGeneration(revisions)
    ensures Descends(revisions, bound, Newest(revisions, bound, limit))
    decreases bound
  {
    if bound != 0 && limit != 0 {
      NewestDescends(revisions, bound - 1, if bound - 1 in revisions then limit - 1 else limit);
    }
  }

  /** It returns the `limit` newest, fewer only when fewer are stored. */
  lemma {:induction false} NewestCounts(revisions: map<nat, Revision>, bound: nat, limit: nat)
    ensures var stored := |Stored(revisions, 0, bound)|;
            |Newest(revisions, bound, limit)| == if stored < limit then stored else limit
    decreases bound
  {
    hide Stored;
    if bound == 0 {
      NoneStored(revisions, 0);
    } else {
      StoredBelow(revisions, 0, bound);
      if limit != 0 {
        NewestCounts(revisions, bound - 1, if bound - 1 in revisions then limit - 1 else limit);
      }
    }
  }

  lemma NoneStored(revisions: map<nat, Revision>, bound: nat)
    ensures |Stored(revisions, bound, bound)| == 0
  {
    assert Stored(revisions, bound, bound) == {};
  }

  /** A stored revision is listed if and only if fewer than `limit` newer ones are stored. */
  lemma {:induction false} NewestIsExact(revisions: map<nat, Revision>, bound: nat, limit: nat, g: nat)
    requires ByGeneration(revisions) && g in revisions && g < bound
    ensures revisions[g] in Newest(revisions, bound, limit) <==> |Stored(revisions, g + 1, bound)| < limit
    decreases bound
  {
    hide Stored;
    if limit != 0 {
      if g == bound - 1 {
        NoneStored(revisions, bound);
      } else {
        StoredBelow(revisions, g + 1, bound);
        NewestIsExact(revisions, bound - 1, if bound - 1 in revisions then limit - 1 else limit, g);
      }
    }
  }

  /** The first match in the history is a match, and nothing before it is. */
  lemma {:induction false} FirstHealthyIsFirst(history: seq<Revision>, generation: nat)
    ensures var found := FirstHealthyBelow(history, generation);
            && (found.None? <==>
                  forall i :: 0 <= i < |history| ==> !(history[i].generation < generation && history[i].phase == Healthy))
            && (found.Some? ==>
                  exists i :: 0 <= i < |history| && history[i] == found.value
                    && found.value.generation < generation && found.value.phase == Healthy
                    && forall j :: 0 <= j < i ==> !(history[j].generation < generation && history[j].phase == Healthy))
  {
    if history != [] && !(history[0].generation < generation && history[0].phase == Healthy) {
      var rest := history[1..];
      FirstHealthyIsFirst(rest, generation);
      assert forall i :: 0 < i < |history| ==> history[i] == rest[i - 1];
      if FirstHealthyBelow(rest, generation).Some? {
        var k :| 0 <= k < |rest| && rest[k] == FirstHealthyBelow(rest, generation).value
          && forall j :: 0 <= j < k ==> !(rest[j].generation < generation && rest[j].phase == Healthy);
        assert history[k + 1] == rest[k];
        forall j | 0 <= j < k + 1
          ensures !(history[j].generation < generation && history[j].phase == Healthy)
        {
          if 0 < j { assert history[j] == rest[j - 1]; }
        }
      }
    }
  }

  function NewerThan(db: Db, g: nat): set<nat> {
    set k | k in db.revisions && g < k
  }

  /** A revision the observer may restore: healthy, older, and among the thirty newest. */
  predicate Restorable(db: Db, g: nat, generation: nat) {
    && g in db.revisions && g < generation && db.revisions[g].phase == Healthy
    && |NewerThan(db, g)| < 30
  }

  /** The newest of them. */
  ghost predicate IsPick(db: Db, g: nat, generation: nat) {
    Restorable(db, g, generation) && forall h: nat :: Restorable(db, h, generation) ==> h <= g
  }

  // ---------------------------------------------------------------- each step

  lemma WholeSecondsBound(duration: int, deadline: nat)
    requires WholeSeconds(duration) >= deadline && deadline >= 1
    ensures duration >= deadline * SECOND
  {
  }

  lemma DeadlineMeansOverdue(db: Db, instance: Service)
    requires Sound(db) && InstanceOk(db, instance)
    requires DeadlinePassed(db.now, instance, db.revisions[instance.generation])
    ensures OverdueOk(db, instance, db.revisions[instance.generation])
  {
    var current := db.revisions[instance.generation];
    assert RevisionOk(current, Author(db, instance.generation));
    AcceptedDeadline(current.spec);
    WholeSecondsBound(db.now - ActivationOf(instance, current).value, PolicyOf(instance.spec).deadlineSeconds);
  }

  lemma RestorableIsListed(db: Db, g: nat, generation: nat)
    requires Sound(db) && ByGeneration(db.revisions) && g in db.revisions
    ensures Restorable(db, g, generation) <==>
              && db.revisions[g] in Newest(db.revisions, db.service.generation + 1, 30)
              && g < generation && db.revisions[g].phase == Healthy
  {
    hide LogShape, RevisionOk, Newest;
    NewestIsExact(db.revisions, db.service.generation + 1, 30, g);
    assert Stored(db.revisions, g + 1, db.service.generation + 1) == NewerThan(db, g);
  }

  /** The pick, over a history whose revisions carry their generation. */
  lemma PickFromNewest(db: Db, generation: nat)
    requires Sound(db) && ByGeneration(db.revisions)
    ensures var previous := FirstHealthyBelow(Newest(db.revisions, db.service.generation + 1, 30), generation);
            && (previous.None? <==> forall g: nat :: !Restorable(db, g, generation))
            && (previous.Some? ==>
                  && IsPick(db, previous.value.generation, generation)
                  && previous.value == db.revisions[previous.value.generation])
  {
    hide Sound, FirstHealthyBelow, Newest, Restorable;
    var listed := Newest(db.revisions, db.service.generation + 1, 30);
    NewestDescends(db.revisions, db.service.generation + 1, 30);
    FirstHealthyIsFirst(listed, generation);
    forall g: nat | Restorable(db, g, generation)
      ensures g in db.revisions && db.revisions[g] in listed && g < generation && db.revisions[g].phase == Healthy
    {
      assert g in db.revisions by { RestorableIsHealthy(db, g, generation); }
      RestorableIsListed(db, g, generation);
    }
    if FirstHealthyBelow(listed, generation).Some? {
      var found := FirstHealthyBelow(listed, generation).value;
      var i :| 0 <= i < |listed| && listed[i] == found;
      assert IsStored(db.revisions, listed[i]);
      RestorableIsListed(db, found.generation, generation);
    }
  }

  lemma RestorableIsHealthy(db: Db, g: nat, generation: nat)
    requires Restorable(db, g, generation)
    ensures g in db.revisions && db.revisions[g].phase == Healthy && g < generation
  {
  }

  lemma HealthyAboveIsRestorable(db: Db, low: nat, g: nat, generation: nat)
    requires Restorable(db, low, generation) && low < g < generation && g in db.revisions
    requires db.revisions[g].phase == Healthy
    ensures Restorable(db, g, generation)
  {
    SubsetIsSmaller(NewerThan(db, g), NewerThan(db, low));
  }

  /**
  What an observer picks: the newest revision it may restore, and none only if there is none. No healthy
  revision lies between the pick and the generation it observed.
  */
  lemma HistoryGivesNewestHealthy(db: Db, generation: nat)
    requires Sound(db) && generation <= db.service.generation
    ensures var previous := FirstHealthyBelow(Newest(db.revisions, db.service.generation + 1, 30), generation);
            && (previous.None? <==> forall g: nat :: !Restorable(db, g, generation))
            && (previous.Some? ==>
                  && IsPick(db, previous.value.generation, generation)
                  && previous.value == db.revisions[previous.value.generation]
                  && HealthyBelow(db, previous.value, generation)
                  && NoneHealthyBetween(db, previous.value.generation, generation))
  {
    hide PolicyAccepted, FirstHealthyBelow, Newest, Restorable;
    forall g | g in db.revisions
      ensures db.revisions[g].generation == g
      ensures db.revisions[g].phase == Healthy <==> db.revisions[g].readyAt.Some?
    {
      assert RevisionOk(db.revisions[g], Author(db, g));
    }
    PickFromNewest(db, generation);
    var previous := FirstHealthyBelow(Newest(db.revisions, db.service.generation + 1, 30), generation);
    if previous.Some? {
      assert db.revisions[previous.value.generation].phase == Healthy && previous.value.generation < generation by {
        RestorableIsHealthy(db, previous.value.generation, generation);
      }
      forall g | previous.value.generation < g < generation && g in db.revisions
        ensures db.revisions[g].readyAt.None?
      {
        if db.revisions[g].phase == Healthy {
          HealthyAboveIsRestorable(db, previous.value.generation, g, generation);
        }
      }
    }
  }

  /** A step that leaves revisions and log alone is a transaction. */
  lemma QuietTransaction(db: Db, db': Db)
    requires Sound(db)
    requires db.now <= db'.now && db'.log == db.log && db'.revisions == db.revisions
    requires db'.service.generation == db.service.generation && db'.service.spec == db.service.spec
    ensures Transaction(db, db')
  {
    hide PolicyAccepted, PolicyOf, Restored, EntryOk;
    forall g | g in db'.revisions
      ensures RevisionOk(db'.revisions[g], Author(db', g))
    {
      assert RevisionOk(db.revisions[g], Author(db, g));
    }
  }

  lemma FencedTransaction(w: World, pid: nat, checks: Checks)
    requires Sound(w.db) && ControllerOk(w.db, ControllerOf(w, pid))
    ensures Transaction(w.db, FencedRollbackStep(w, pid, checks).db)
  {
    hide PolicyAccepted, PolicyOf, Restored, Transaction, Sound, NoneHealthyBetween, ApplyRollback;
    var c := ControllerOf(w, pid);
    if c.Permitted? && c.current.principal.Some?
       && ApplyRollback(w.db, Automatic, c.instance, c.previous, c.current.principal.value, checks).Some? {
      RollbackTransaction(w.db, Automatic, c.instance, c.current, c.previous, c.current.principal.value, checks);
    } else {
      QuietTransaction(w.db, w.db);
    }
  }

  lemma ManualTransaction(w: World, pid: nat, checks: Checks)
    requires Sound(w.db) && ControllerOk(w.db, ControllerOf(w, pid))
    ensures Transaction(w.db, ManualRollbackStep(w, pid, checks).db)
  {
    hide PolicyAccepted, PolicyOf, Restored, Transaction, Sound, ApplyRollback;
    var c := ControllerOf(w, pid);
    if c.Targeted? && ApplyRollback(w.db, Manual, c.instance, c.previous, c.principal, checks).Some? {
      RollbackTransaction(w.db, Manual, c.instance, c.previous, c.previous, c.principal, checks);
    } else {
      QuietTransaction(w.db, w.db);
    }
  }

  lemma ObserveTransaction(w: World, pid: nat, status: Option<Status>)
    requires Sound(w.db)
    ensures Transaction(w.db, ObserveStep(w, pid, status).db)
  {
    hide PolicyAccepted, PolicyOf, Restored, Transaction, Sound, RecordObservation;
    QuietTransaction(w.db, w.db);
    if ControllerOf(w, pid).Listed? && status.Some? {
      ObservationTransaction(w.db, ControllerOf(w, pid).instance, status.value);
    }
  }

  lemma MarkStepTransaction(w: World, pid: nat)
    requires Sound(w.db)
    ensures Transaction(w.db, Step(w, Mark(pid)).db)
  {
    hide PolicyAccepted, PolicyOf, Restored, Transaction, Sound, MarkRolledBack;
    if ControllerOf(w, pid).Marking? {
      MarkTransaction(w.db, ControllerOf(w, pid).generation);
    } else {
      QuietTransaction(w.db, w.db);
    }
  }

  /** The controller an action belongs to; actions of users and of the worker have none. */
  function Actor(a: Action): Option<nat> {
    if a.Wait? || a.UserEdit? || a.UserDelete? || a.FinishDelete? || a.Report? then None else Some(a.pid)
  }

  lemma StepTransaction(w: World, a: Action)
    requires Sound(w.db)
    requires Actor(a).Some? ==> ControllerOk(w.db, ControllerOf(w, Actor(a).value))
    ensures Transaction(w.db, Step(w, a).db)
  {
    hide PolicyAccepted, PolicyOf, Restored, Transaction, Sound, ControllerOk, ApplyEdit, ApplyDelete, WorkerReport,
         ObserveStep, FencedRollbackStep, ManualRollbackStep, MarkRolledBack, DeadlinePassed, FirstHealthyBelow;
    match a {
      case Wait(_) => QuietTransaction(w.db, Step(w, a).db);
      case UserEdit(spec, author, checks) => EditTransaction(w.db, spec, author, checks);
      case UserDelete => DeleteTransaction(w.db);
      case FinishDelete(_) => QuietTransaction(w.db, Step(w, a).db);
      case Report(generation, ready, status) => ReportTransaction(w.db, generation, ready, status);
      case Observe(pid, status) => ObserveTransaction(w, pid, status);
      case FencedRollback(pid, checks) => FencedTransaction(w, pid, checks);
      case Mark(pid) => MarkStepTransaction(w, pid);
      case FencedManualRollback(pid, checks) => ManualTransaction(w, pid, checks);
      case _ => QuietTransaction(w.db, w.db);
    }
  }

  lemma CurrentInstanceOk(db: Db)
    requires Sound(db)
    ensures InstanceOk(db, db.service)
  {
    assert RevisionOk(db.revisions[db.service.generation], Last(db));
  }

  lemma TargetIsHealthy(db: Db, generation: nat)
    requires Sound(db) && generation in db.revisions && db.revisions[generation].phase == Healthy
    ensures db.revisions[generation].generation == generation && db.revisions[generation].readyAt.Some?
  {
    assert RevisionOk(db.revisions[generation], Author(db, generation));
  }

  /** A controller that only reads ends up knowing what the database backs. */
  lemma ReaderOk(w: World, a: Action)
    requires Sound(w.db) && Actor(a).Some? && ControllerOk(w.db, ControllerOf(w, a.pid))
    requires a.ListTargets? || a.ReadCurrent? || a.ReadHistory? || a.Authorize? || a.RequestRollback? || a.ReadTarget?
    ensures ControllerOk(w.db, ControllerOf(Step(w, a), a.pid))
  {
    hide PolicyAccepted, PolicyOf, Restored, Sound, DeadlinePassed, FirstHealthyBelow, NoneHealthyBetween;
    var c := ControllerOf(w, a.pid);
    var db := w.db;
    if a.ListTargets? || a.RequestRollback? {
      CurrentInstanceOk(db);
    } else if a.ReadCurrent? && c.Observed? {
      if DeadlinePassed(db.now, c.instance, db.revisions[c.instance.generation]) {
        DeadlineMeansOverdue(db, c.instance);
      }
    } else if a.ReadHistory? && c.Overdue? {
      HistoryGivesNewestHealthy(db, c.instance.generation);
    } else if a.ReadTarget? && c.Requested? {
      if c.generation in db.revisions && db.revisions[c.generation].phase == Healthy {
        TargetIsHealthy(db, c.generation);
      }
    }
  }

  /** The acting controller's knowledge is backed by the database after its step. */
  lemma ActorStaysOk(w: World, a: Action)
    requires Sound(w.db) && Actor(a).Some? && ControllerOk(w.db, ControllerOf(w, a.pid))
    requires Transaction(w.db, Step(w, a).db)
    ensures ControllerOk(Step(w, a).db, ControllerOf(Step(w, a), a.pid))
  {
    hide PolicyAccepted, PolicyOf, Restored, Sound, Evolves, EntryOk, InstanceOk, OverdueOk, HealthyBelow,
         NoneHealthyBetween, ApplyRollback, RecordObservation, MarkRolledBack;
    if a.ListTargets? || a.ReadCurrent? || a.ReadHistory? || a.Authorize? || a.RequestRollback? || a.ReadTarget? {
      ReaderOk(w, a);
    } else {
      ControllerPersists(w.db, Step(w, a).db, ControllerOf(w, a.pid));
    }
  }

  lemma OnlyActorMoves(w: World, a: Action)
    ensures Actor(a).None? ==> Step(w, a).controllers == w.controllers
    ensures Actor(a).Some? ==>
              var w' := Step(w, a);
              w'.controllers == w.controllers
              || (a.pid in w'.controllers && w'.controllers == w.controllers[a.pid := w'.controllers[a.pid]])
  {
    hide ApplyEdit, ApplyDelete, WorkerReport, RecordObservation, ApplyRollback, MarkRolledBack, DeadlinePassed,
         FirstHealthyBelow;
  }

  /** Every step keeps the invariant and evolves the database forward only. */
  lemma StepPreserves(w: World, a: Action)
    requires Inv(w)
    ensures Inv(Step(w, a)) && Evolves(w.db, Step(w, a).db)
  {
    hide PolicyAccepted, PolicyOf, Restored, Step, Sound, EntriesOk;
    StepTransaction(w, a);
    OnlyActorMoves(w, a);
    if Actor(a).Some? {
      ActorStaysOk(w, a);
      InvByTransaction(w, Step(w, a), a.pid);
    } else {
      InvByTransaction(w, Step(w, a), 0);
    }
  }

  // ---------------------------------------------------------------- whole runs

  lemma EvolvesTransitive(a: Db, b: Db, c: Db)
    requires Evolves(a, b) && Evolves(b, c)
    ensures Evolves(a, c)
  {
    hide PolicyAccepted, PolicyOf, Restored;
  }

  /** Every interleaving keeps the invariant. */
  lemma {:induction false} RunPreserves(w: World, actions: seq<Action>)
    requires Inv(w)
    ensures Inv(Run(w, actions)) && Evolves(w.db, Run(w, actions).db)
    decreases |actions|
  {
    hide ControllerOk, EntriesOk;
    if actions != [] {
      var most := actions[..|actions| - 1];
      RunPreserves(w, most);
      StepPreserves(Run(w, most), actions[|actions| - 1]);
      EvolvesTransitive(w.db, Run(w, most).db, Run(w, actions).db);
    }
  }

  predicate IsRollback(e: Write) {
    e.kind == Automatic || e.kind == Manual
  }

  /**
  Fencing. In every run a rollback computed from generation `g` took effect only while `g` was
  current: the write it replaced is the one it had read, with nothing in between. So each
  generation is rolled back at most once, and generations of successive writes grow by one.
  */
  lemma RollbacksAreFenced(w: World, actions: seq<Action>)
    requires Inv(w)
    ensures var log := Run(w, actions).db.log;
            && w.db.log <= log
            && (forall i :: 0 < i < |log| ==> log[i].generation == log[i - 1].generation + 1)
            && (forall i :: 0 < i < |log| && IsRollback(log[i]) ==>
                  log[i].base == log[i - 1].generation && log[i].generation == log[i].base + 1)
            && (forall i, j :: 0 < i < j < |log| && IsRollback(log[i]) && IsRollback(log[j]) ==>
                  log[i].base < log[j].base)
  {
    hide PolicyAccepted, PolicyOf, Restored, ControllerOk, SameButPorts, NoneHealthyBetween, RevisionOk;
    RunPreserves(w, actions);
    var db := Run(w, actions).db;
    forall i | 0 < i < |db.log| && IsRollback(db.log[i])
      ensures db.log[i].base == db.log[i - 1].generation && db.log[i].generation == db.log[i].base + 1
    {
      assert EntryOk(db, i);
    }
  }

  /** The last ordinary edit in a log. */
  function LastEdit(log: seq<Write>): (i: nat)
    requires log != [] && log[0].kind == Edit
    ensures i < |log| && log[i].kind == Edit && forall j :: i < j < |log| ==> log[j].kind != Edit
  {
    if log[|log| - 1].kind == Edit then |log| - 1 else LastEdit(log[..|log| - 1])
  }

  /** A rollback leaves every access setting as the write before it had them. */
  lemma RollbackKeepsAccess(db: Db, i: nat, key: string)
    requires Sound(db) && EntriesOk(db) && 0 < i < |db.log| && db.log[i].kind != Edit && key in ACCESS_KEYS
    ensures Field(db.log[i].spec, key) == Field(db.log[i - 1].spec, key)
  {
    hide PolicyAccepted, PolicyOf;
    assert EntryOk(db, i);
    if IsRollback(db.log[i]) {
      StorageIsNotAccess();
      RestoredFields(Author(db, db.log[i].target).spec, db.log[i - 1].spec);
    }
  }

  lemma {:induction false} AccessSinceLastEdit(db: Db, i: nat, j: nat, key: string)
    requires Sound(db) && EntriesOk(db) && i <= j < |db.log| && key in ACCESS_KEYS
    requires forall k :: i < k <= j ==> db.log[k].kind != Edit
    ensures Field(db.log[j].spec, key) == Field(db.log[i].spec, key)
    decreases j - i
  {
    hide PolicyAccepted, PolicyOf, Restored;
    if i < j {
      AccessSinceLastEdit(db, i, j - 1, key);
      RollbackKeepsAccess(db, j, key);
    }
  }

  lemma AccessOfLastEdit(db: Db, key: string)
    requires Sound(db) && EntriesOk(db) && key in ACCESS_KEYS
    ensures Field(db.service.spec, key) == Field(db.log[LastEdit(db.log)].spec, key)
  {
    hide PolicyAccepted, PolicyOf, Restored, Field, EntriesOk, RevisionOk;
    AccessSinceLastEdit(db, LastEdit(db.log), |db.log| - 1, key);
  }

  /**
  Access. After any run, every access, secret, exposure and network setting of the service is the
  one of the last ordinary edit: no rollback ever resurrects an older one.
  */
  lemma AccessIsThatOfLastEdit(w: World, actions: seq<Action>)
    requires Inv(w)
    ensures var db := Run(w, actions).db;
            && db.log != [] && db.log[0].kind == Edit
            && forall key :: IsAccess(key) ==>
                 Field(db.service.spec, key) == Field(db.log[LastEdit(db.log)].spec, key)
  {
    hide PolicyAccepted, PolicyOf, Restored, Field, EntriesOk, RevisionOk, ControllerOk, LastEdit, IsAccess;
    RunPreserves(w, actions);
    var db := Run(w, actions).db;
    forall key | IsAccess(key)
      ensures Field(db.service.spec, key) == Field(db.log[LastEdit(db.log)].spec, key)
    {
      KeysAreThese(key);
      AccessOfLastEdit(db, key);
    }
  }

  predicate IsExecutionKey(key: string) {
    !IsAccess(key) && !IsDisk(key) && key != "ports"
  }

  /** The size of a disk, where the specification has one: a 64-bit number. */
  function DiskSize(spec: Spec, key: string): Option<nat> {
    match Field(spec, key)
    case Some(Num(n)) => if 0 <= n < 0x1_0000_0000_0000_0000 then Some(n) else None
    case _ => None
  }

  /** The disk has its size after a write that restores a target: the current one, or the target's if that is larger. */
  predicate LargerDisk(spec: Spec, current: Spec, target: Spec, key: string) {
    && DiskSize(spec, key).Some? && DiskSize(current, key).Some?
    && DiskSize(current, key).value <= DiskSize(spec, key).value
    && (DiskSize(target, key).Some? ==> DiskSize(target, key).value <= DiskSize(spec, key).value)
    && (DiskSize(spec, key) == DiskSize(current, key) || DiskSize(spec, key) == DiskSize(target, key))
  }

  lemma RestoredExecution(db: Db, i: nat, key: string)
    requires Sound(db) && EntriesOk(db) && 0 < i < |db.log| && IsRollback(db.log[i])
    ensures db.log[i].target in db.revisions
    ensures IsExecutionKey(key) ==> Field(db.log[i].spec, key) == Field(db.revisions[db.log[i].target].spec, key)
    ensures IsDisk(key) && DiskSize(db.log[i - 1].spec, key).Some? ==>
              LargerDisk(db.log[i].spec, db.log[i - 1].spec, db.revisions[db.log[i].target].spec, key)
  {
    hide PolicyAccepted, PolicyOf, Restored, NoneHealthyBetween, IsAccess, IsDisk;
    KeysAreThese(key);
    var e := db.log[i];
    assert EntryOk(db, i);
    StorageIsNotAccess();
    assert RevisionOk(db.revisions[e.target], Author(db, e.target));
    RestoredFields(db.revisions[e.target].spec, db.log[i - 1].spec);
    assert Field(Restored(db.revisions[e.target].spec, db.log[i - 1].spec), key)
        == RestoredField(db.revisions[e.target].spec, db.log[i - 1].spec, key);
    if key in STORAGE_KEYS {
      assert key !in ACCESS_KEYS && key != "ports";
    }
  }

  /**
  Provenance. Each rollback took its execution settings from a strictly earlier revision that had
  been proved healthy and still is, never shrank a disk, and an automatic one chose the newest
  healthy revision and acts for the author of the revision it replaces.
  */
  lemma RollbacksRestoreHealthyRevisions(w: World, actions: seq<Action>, i: nat)
    requires Inv(w)
    requires 0 < i < |Run(w, actions).db.log| && IsRollback(Run(w, actions).db.log[i])
    ensures var db := Run(w, actions).db; var e := db.log[i];
            && e.target < e.base && e.target in db.revisions && db.revisions[e.target].readyAt.Some?
            && (forall key :: IsExecutionKey(key) ==>
                  Field(e.spec, key) == Field(db.revisions[e.target].spec, key))
            && (forall key :: IsDisk(key) && DiskSize(db.log[i - 1].spec, key).Some? ==>
                  LargerDisk(e.spec, db.log[i - 1].spec, db.revisions[e.target].spec, key))
            && (e.kind == Automatic ==>
                  e.principal == db.log[i - 1].principal && NoneHealthyBetween(db, e.target, e.base))
  {
    hide PolicyAccepted, PolicyOf, Restored, NoneHealthyBetween, ControllerOk, Field, DiskSize, LargerDisk;
    RunPreserves(w, actions);
    var db := Run(w, actions).db;
    assert EntryOk(db, i);
    forall key
      ensures IsExecutionKey(key) ==> Field(db.log[i].spec, key) == Field(db.revisions[db.log[i].target].spec, key)
      ensures IsDisk(key) && DiskSize(db.log[i - 1].spec, key).Some? ==>
                LargerDisk(db.log[i].spec, db.log[i - 1].spec, db.revisions[db.log[i].target].spec, key)
    {
      RestoredExecution(db, i, key);
    }
  }

  // ---------------------------------------------------------------- rate of automatic rollbacks

  lemma AutomaticWaits(db: Db, i: nat)
    requires Sound(db) && EntriesOk(db) && 0 < i < |db.log| && db.log[i].kind == Automatic
    ensures db.log[i].at - db.log[i - 1].at >= PolicyOf(db.log[i - 1].spec).deadlineSeconds * SECOND
    ensures PolicyOf(db.log[i - 1].spec).deadlineSeconds >= 60
  {
    assert EntryOk(db, i);
    var before := db.log[i - 1].generation;
    assert Author(db, before) == db.log[i - 1];
    assert RevisionOk(db.revisions[before], Author(db, before));
    AcceptedDeadline(db.log[i - 1].spec);
  }

  lemma {:induction false} TimesGrow(db: Db, i: nat, j: nat)
    requires Sound(db) && EntriesOk(db) && i <= j < |db.log|
    ensures db.log[i].at <= db.log[j].at
    decreases j - i
  {
    hide RollbackOk;
    if i < j {
      TimesGrow(db, i, j - 1);
      assert EntryOk(db, j);
    }
  }

  /** The number of automatic rollbacks written in the closed interval. */
  function AutomaticIn(log: seq<Write>, from: int, to: int): nat {
    if log == [] then 0
    else
      var e := log[|log| - 1];
      AutomaticIn(log[..|log| - 1], from, to) + (if e.kind == Automatic && from <= e.at <= to then 1 else 0)
  }

  ghost predicate SpacedByAMinute(log: seq<Write>) {
    forall i, j :: 0 <= i < j < |log| && log[i].kind == Automatic && log[j].kind == Automatic ==>
      log[j].at - log[i].at >= MINUTE
  }

  lemma {:induction false} NarrowerInterval(log: seq<Write>, from: int, to: int, narrow: int)
    requires narrow <= to
    requires forall i :: 0 <= i < |log| && log[i].kind == Automatic ==> log[i].at <= narrow
    ensures AutomaticIn(log, from, to) == AutomaticIn(log, from, narrow)
  {
    if log != [] {
      NarrowerInterval(log[..|log| - 1], from, to, narrow);
    }
  }

  lemma {:induction false} SpacedCount(log: seq<Write>, from: int, to: int)
    requires SpacedByAMinute(log)
    ensures AutomaticIn(log, from, to) > 0 ==> (AutomaticIn(log, from, to) - 1) * MINUTE <= to - from
    decreases |log|
  {
    if log != [] {
      var rest := log[..|log| - 1];
      var e := log[|log| - 1];
      if e.kind == Automatic && from <= e.at <= to {
        NarrowerInterval(rest, from, to, e.at - MINUTE);
        SpacedCount(rest, from, e.at - MINUTE);
      } else {
        SpacedCount(rest, from, to);
      }
    }
  }

  /**
  Rate. Two automatic rollbacks of one service are at least the deadline of the later one's
  replaced revision apart, hence at least a minute, and any window of `seconds` holds at most
  `1 + seconds / 60` of them.
  */
  lemma AutomaticRollbacksAreSpaced(w: World, actions: seq<Action>, i: nat, j: nat)
    requires Inv(w)
    requires 0 < i < j < |Run(w, actions).db.log|
    requires Run(w, actions).db.log[i].kind == Automatic && Run(w, actions).db.log[j].kind == Automatic
    ensures var log := Run(w, actions).db.log;
            && log[j].at - log[i].at >= PolicyOf(log[j - 1].spec).deadlineSeconds * SECOND
            && log[j].at - log[i].at >= 60 * SECOND
  {
    hide PolicyAccepted, PolicyOf, Restored, ControllerOk, EntriesOk, Sound, Step;
    RunPreserves(w, actions);
    AutomaticWaits(Run(w, actions).db, j);
    TimesGrow(Run(w, actions).db, i, j - 1);
  }

  lemma AutomaticRollbackRate(w: World, actions: seq<Action>, from: int, seconds: nat)
    requires Inv(w)
    ensures AutomaticIn(Run(w, actions).db.log, from, from + seconds * SECOND) <= 1 + seconds / 60
  {
    hide PolicyAccepted, PolicyOf, Restored, ControllerOk, EntriesOk;
    RunPreserves(w, actions);
    var log := Run(w, actions).db.log;
    assert log[0].kind == Edit;
    forall i, j | 0 <= i < j < |log| && log[i].kind == Automatic && log[j].kind == Automatic
      ensures log[j].at - log[i].at >= 60 * SECOND
    {
      AutomaticRollbacksAreSpaced(w, actions, i, j);
    }
    SpacedCount(log, from, from + seconds * SECOND);
  }

  /** A service as it is created: one edit, one revision. */
  function Created(now: int, generation: nat, spec: Spec, principal: int): World {
    World(Db(now, Service(generation, spec, Provisioning),
             map[generation := Revision(generation, spec, Some(principal), Pending, now, None, None)],
             [Write(Edit, generation, 0, 0, spec, Some(principal), now)]),
          map[])
  }

  lemma CreatedIsSound(now: int, generation: nat, spec: Spec, principal: int)
    requires PolicyAccepted(spec)
    ensures Inv(Created(now, generation, spec, principal))
  {
  }
}
