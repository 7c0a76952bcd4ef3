/**
What the transactions on a service do, said without their definitions: when an edit or a rollback
takes effect and what it stores, and what proves a revision healthy.
*/
module FlashEffects {
  import opened Outcomes
  import opened Json
  import opened RollbackSpecs
  import opened FlashDeployments

  /** `db'` is `db` after a write that made `spec` the next generation. */
  predicate Replaced(db: Db, db': Db, kind: Kind, base: nat, target: nat, spec: Spec, author: int) {
    var g := db.service.generation + 1;
    && db'.now == db.now
    && db'.service == Service(g, spec, Updating)
    && db'.revisions == db.revisions[g := Revision(g, spec, Some(author), Pending, db.now, None, None)]
    && db'.log == db.log + [Write(kind, g, base, target, spec, Some(author), db.now)]
  }

  /** The service can be written: it exists, is not being deleted, and its generation counter has room. */
  predicate Writable(db: Db) {
    db.service.state !in {Deleting, Removed} && db.service.generation < 0x7FFF_FFFF_FFFF_FFFF
  }

  function Ported(spec: Spec, checks: Checks): Spec
    requires checks.Passed?
  {
    match checks.ports
    case Some(ports) => spec["ports" := ports]
    case None => spec
  }

  /** An edit is stored as the next generation if and only if nothing refuses it; otherwise nothing changes. */
  lemma EditsTakeEffect(db: Db, spec: Spec, author: int, checks: Checks)
    requires Sound(db)
    ensures var db' := ApplyEdit(db, spec, author, checks);
            if Writable(db) && checks.Passed? && PolicyAccepted(Ported(spec, checks))
            then Replaced(db, db', Edit, 0, 0, Ported(spec, checks), author)
            else db' == db
  {
    hide PolicyAccepted, RevisionOk;
  }

  /** So is a rollback, provided the generation its author read is still the current one. */
  lemma RollbacksTakeEffect(db: Db, kind: Kind, instance: Service, previous: Revision, principal: int, checks: Checks)
    requires Sound(db)
    ensures var written := ApplyRollback(db, kind, instance, previous, principal, checks);
            var spec := Restored(previous.spec, instance.spec);
            if Writable(db) && checks.Passed? && PolicyAccepted(Ported(spec, checks))
               && db.service.generation == instance.generation
            then written.Some?
                 && Replaced(db, written.value, kind, instance.generation, previous.generation,
                             Ported(spec, checks), principal)
            else written == None
  {
    hide PolicyAccepted, RevisionOk, Restored;
  }

  /** A deletion is a generation of its own with the same specification, and is completed only as the current one. */
  lemma DeletionsTakeEffect(db: Db, generation: nat)
    requires Sound(db)
    ensures var db', g := ApplyDelete(db), db.service.generation + 1;
            if Writable(db)
            then && db'.service == Service(g, db.service.spec, Deleting)
                 && db'.revisions == db.revisions[g := Revision(g, db.service.spec, None, Pending, db.now, None, None)]
                 && db'.log == db.log + [Write(Deletion, g, 0, 0, db.service.spec, None, db.now)]
            else db' == db
    ensures var db' := CompleteDelete(db, generation);
            if db.service.state == Deleting && db.service.generation == generation
            then db' == db.(service := Service(generation, db.service.spec, Removed))
            else db' == db
  {
    hide RevisionOk;
  }

  predicate Runs(spec: Spec) {
    Field(spec, "stopped") != Some(Bool(true))
  }

  /** A status of generation g with a running replica. */
  predicate Serving(status: Status, g: nat) {
    status.observedGeneration == Some(g) && status.readyReplicas >= 1
  }

  /** The action reports that the application of generation g is up: by the worker, or by an observer of g. */
  predicate ProvedBy(w: World, a: Action, g: nat) {
    && w.db.service.generation == g && Runs(w.db.service.spec)
    && match a
       case Report(reported, ready, status) =>
         reported == g && ready && Serving(status, g) && w.db.service.state != Removed
       case Observe(pid, Some(status)) =>
         && pid in w.controllers && w.controllers[pid].Listed? && w.controllers[pid].instance.generation == g
         && status.phase == ProviderReady && Serving(status, g) && w.db.service.state !in {Deleting, Removed}
       case _ => false
  }

  lemma ReportProves(db: Db, generation: nat, ready: bool, status: Status, g: nat)
    requires Sound(db) && g in db.revisions && db.revisions[g].readyAt.None?
    ensures var db' := WorkerReport(db, generation, ready, status);
            && g in db'.revisions
            && db'.revisions[g].readyAt ==
               if && generation == g == db.service.generation && ready && Serving(status, g)
                  && Runs(db.service.spec) && db.service.state != Removed
               then Some(db.now) else None
  {
    hide RevisionOk;
  }

  lemma ObservationProves(db: Db, instance: Service, status: Status, g: nat)
    requires Sound(db) && g in db.revisions && db.revisions[g].readyAt.None?
    ensures var db' := RecordObservation(db, instance, status);
            && g in db'.revisions
            && db'.revisions[g].readyAt ==
               if && instance.generation == g == db.service.generation && status.phase == ProviderReady && Serving(status, g)
                  && Runs(db.service.spec) && db.service.state !in {Deleting, Removed}
               then Some(db.now) else None
  {
    hide RevisionOk;
  }

  lemma EditsKeep(db: Db, spec: Spec, author: int, checks: Checks, g: nat)
    requires Sound(db) && g in db.revisions
    ensures var db' := ApplyEdit(db, spec, author, checks); g in db'.revisions && db'.revisions[g] == db.revisions[g]
  {
    EditsTakeEffect(db, spec, author, checks);
  }

  lemma DeletionKeeps(db: Db, g: nat)
    requires Sound(db) && g in db.revisions
    ensures var db' := ApplyDelete(db); g in db'.revisions && db'.revisions[g] == db.revisions[g]
  {
    DeletionsTakeEffect(db, 0);
  }

  lemma RollbackKeeps(db: Db, kind: Kind, instance: Service, previous: Revision, principal: int, checks: Checks, g: nat)
    requires Sound(db) && g in db.revisions
    ensures var written := ApplyRollback(db, kind, instance, previous, principal, checks);
            written.Some? ==> g in written.value.revisions && written.value.revisions[g] == db.revisions[g]
  {
    RollbacksTakeEffect(db, kind, instance, previous, principal, checks);
  }

  /** A revision becomes healthy exactly when its application is reported up while it is the current one. */
  lemma ReadinessExactly(w: World, a: Action, g: nat)
    requires Inv(w) && g in w.db.revisions && w.db.revisions[g].readyAt.None?
    ensures g in Step(w, a).db.revisions
    ensures Step(w, a).db.revisions[g].readyAt == if ProvedBy(w, a, g) then Some(w.db.now) else None
  {
    hide Inv, Sound, FirstHealthyBelow, DeadlinePassed, WorkerReport, RecordObservation, ApplyEdit, ApplyDelete,
         ApplyRollback, Runs;
    assert Sound(w.db) by { StartsSound(w); }
    match a {
      case Report(reported, ready, status) => ReportProves(w.db, reported, ready, status, g);
      case Observe(pid, Some(status)) =>
        if ControllerOf(w, pid).Listed? { ObservationProves(w.db, ControllerOf(w, pid).instance, status, g); }
      case UserEdit(spec, author, checks) => EditsKeep(w.db, spec, author, checks, g);
      case UserDelete => DeletionKeeps(w.db, g);
      case FencedRollback(pid, checks) =>
        var c := ControllerOf(w, pid);
        if c.Permitted? && c.current.principal.Some? {
          RollbackKeeps(w.db, Automatic, c.instance, c.previous, c.current.principal.value, checks, g);
        }
      case FencedManualRollback(pid, checks) =>
        var c := ControllerOf(w, pid);
        if c.Targeted? { RollbackKeeps(w.db, Manual, c.instance, c.previous, c.principal, checks, g); }
      case _ =>
    }
  }

  lemma StartsSound(w: World)
    requires Inv(w)
    ensures Sound(w.db)
  {
  }

  /** Some step of the run reported the application of generation g up. */
  ghost predicate Proved(w: World, actions: seq<Action>, g: nat) {
    exists i: nat :: i < |actions| && ProvedBy(Run(w, actions[..i]), actions[i], g)
  }

  lemma ProofStays(w: World, actions: seq<Action>, a: Action, g: nat)
    requires Proved(w, actions, g)
    ensures Proved(w, actions + [a], g)
  {
    hide Run, ProvedBy;
    var i: nat :| i < |actions| && ProvedBy(Run(w, actions[..i]), actions[i], g);
    assert (actions + [a])[..i] == actions[..i];
  }

  /** Health comes from the application: in every run, what became healthy was reported up. */
  lemma {:induction false} HealthIsProved(w: World, actions: seq<Action>, g: nat)
    requires Inv(w) && g in Run(w, actions).db.revisions && Run(w, actions).db.revisions[g].readyAt.Some?
    requires g !in w.db.revisions || w.db.revisions[g].readyAt.None?
    ensures Proved(w, actions, g)
    decreases |actions|
  {
    if actions != [] {
      hide Inv, Step, ProvedBy;
      var most, a := actions[..|actions| - 1], actions[|actions| - 1];
      assert actions == most + [a];
      RunPreserves(w, most);
      var v := Run(w, most);
      if g !in v.db.revisions {
        NewRevisionsPend(v, a, g);
      } else if v.db.revisions[g].readyAt.Some? {
        HealthIsProved(w, most, g);
        ProofStays(w, most, a, g);
      } else {
        ReadinessExactly(v, a, g);
        assert actions[..|most|] == most;
      }
    }
  }

  lemma NewRevisionsPend(w: World, a: Action, g: nat)
    requires Inv(w) && g !in w.db.revisions && g in Step(w, a).db.revisions
    ensures Step(w, a).db.revisions[g].readyAt.None?
  {
    hide FirstHealthyBelow, DeadlinePassed, RevisionOk, ControllerOk, EntriesOk, Restored, PolicyAccepted, ProvesHealth,
         Stopped;
  }

  /**
  A rollback restores only what has run: the target of every rollback that a run of a new service makes,
  automatic or manual, was reported up by the worker or by an observer while it was the current revision.
  */
  lemma RollbackTargetsHaveRun(
    now: int, generation: nat, spec: Spec, principal: int, actions: seq<Action>, i: nat)
    requires PolicyAccepted(spec)
    requires var log := Run(Created(now, generation, spec, principal), actions).db.log;
             0 < i < |log| && IsRollback(log[i])
    ensures var w := Created(now, generation, spec, principal);
            Proved(w, actions, Run(w, actions).db.log[i].target)
  {
    hide PolicyAccepted, Run, Proved;
    var w := Created(now, generation, spec, principal);
    CreatedIsSound(now, generation, spec, principal);
    RollbacksRestoreHealthyRevisions(w, actions, i);
    HealthIsProved(w, actions, Run(w, actions).db.log[i].target);
  }

  /** An observation of the current generation also sets the state, and the first one with replicas starts the deadline. */
  lemma ObservationsTakeEffect(db: Db, instance: Service, status: Status)
    requires Sound(db)
    ensures var db', g := RecordObservation(db, instance, status), db.service.generation;
            if status.observedGeneration == Some(instance.generation) && instance.generation == g
               && db.service.state !in {Deleting, Removed}
            then && db'.service.generation == g && db'.service.spec == db.service.spec
                 && (status.phase == ProviderReady ==> db'.service.state == Ready)
                 && (status.phase == ProviderError ==> db'.service.state == Error)
                 && (status.phase == ProviderOther ==> db'.service.state == Updating)
                 && g in db'.revisions
                 && (db.revisions[g].readyAt.None? && status.phase == ProviderError ==> db'.revisions[g].phase == Failed)
                 && (db.revisions[g].readyAt.None? && status.phase == ProviderOther ==> db'.revisions[g].phase == Pending)
                 && db'.revisions[g].activationStartedAt ==
                    (if db.revisions[g].activationStartedAt.Some? then db.revisions[g].activationStartedAt
                     else if status.desiredReplicas >= 1 && Runs(instance.spec) then Some(db.now)
                     else None)
            else db' == db
  {
    hide RevisionOk;
  }

  /** The worker's outcome sets the state of the generation it worked on, if that is still current. */
  lemma ReportsTakeEffect(db: Db, generation: nat, ready: bool, status: Status)
    requires Sound(db)
    ensures var db', g := WorkerReport(db, generation, ready, status), db.service.generation;
            if generation == g && db.service.state != Removed
            then && db'.service == Service(g, db.service.spec, if ready then Ready else Error)
                 && g in db'.revisions
                 && (db.revisions[g].readyAt.None? && !ready ==> db'.revisions[g].phase == Failed)
            else db' == db
  {
    hide RevisionOk;
  }

  predicate ScalesToZero(spec: Spec) {
    match Field(spec, "autoscaling")
    case Some(Obj(fields)) => "min_replicas" in fields && fields["min_replicas"] == Num(0)
    case _ => false
  }

  /**
  When a revision is overdue: its policy rolls back, it has never been ready, and its deadline has passed
  since its first activation, or since its creation if it does not scale to zero.
  */
  lemma OverdueExactly(now: int, instance: Service, current: Revision)
    requires PolicyAccepted(instance.spec)
    ensures DeadlinePassed(now, instance, current) <==>
            && PolicyOf(instance.spec).autoRollback && current.readyAt == None
            && (current.activationStartedAt != None || !ScalesToZero(instance.spec))
            && (if current.activationStartedAt != None then current.activationStartedAt.value else current.createdAt)
               + PolicyOf(instance.spec).deadlineSeconds * 1_000_000 <= now
  {
    AcceptedDeadline(instance.spec);
    hide PolicyAccepted, PolicyOf;
  }

  /** An idle controller starts with the service as it is; a busy one, or one that expects another generation, does not. */
  lemma StartsExactly(w: World, pid: nat, target: nat, expected: nat, requester: int)
    ensures var w' := Step(w, ListTargets(pid));
            if ControllerOf(w, pid) == Idle && w.db.service.state != Deleting && w.db.service.state != Removed
            then w' == w.(controllers := w.controllers[pid := Listed(w.db.service)])
            else w' == w
    ensures var w' := Step(w, RequestRollback(pid, target, expected, requester));
            if ControllerOf(w, pid) == Idle && w.db.service.state != Removed && w.db.service.generation == expected
            then w' == w.(controllers := w.controllers[pid := Requested(w.db.service, target, requester)])
            else w' == w
  {
  }
}
