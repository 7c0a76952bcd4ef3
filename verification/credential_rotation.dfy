/**
Credential writes of backup destinations. Any number of writers run concurrently; each takes a
transaction-scoped advisory lock keyed by a hash of the destination, stores the key in the secret
manager, sends it to the provider, updates the destination row and commits. A call may fail with
or without having taken effect, a writer may crash anywhere or lose its lock with its connection, and
what it has sent, or still sends without the lock, may arrive at any later time.

`World.last` remembers, for each destination, the most recent writer to enter its critical section.
*/
module CredentialRotation {
  import opened Basics
  import opened Outcomes
  import opened Json

  datatype Credential = Credential(accessKey: string, secretKey: string)

  datatype RowState = RowPending | RowReady | RowError

  datatype ApplyError = BadRequest | Conflict | Unavailable | NotFound | Internal

  datatype Writer =
    | Waiting(dest: string, key: Credential)
    | Locked(dest: string, key: Credential)
    | SecretStored(dest: string, key: Credential)
    | ProviderStored(dest: string, key: Credential, ready: bool)
    | RowUpdated(dest: string, key: Credential, ready: bool)
    | Finished(dest: string, key: Credential, result: Result<RowState, ApplyError>)
    | Crashed

  datatype Session = Session(writer: nat, key: Credential, committed: bool)

  datatype Store = SecretManager | Provider

  /** A request whose sender no longer holds the lock; `World.late` holds those that may still arrive. */
  datatype Request = Request(store: Store, dest: string, key: Credential)

  datatype World = World(
    locks: map<int, nat>,
    secrets: map<string, Credential>,
    provider: map<string, Credential>,
    rows: map<string, RowState>,
    writers: map<nat, Writer>,
    last: map<string, Session>,
    late: set<Request>)

  datatype CallOutcome = Succeeded | Failed(applied: bool)

  datatype Action =
    | Begin(pid: nat, dest: string, key: Credential)
    | Acquire(pid: nat)
    | GiveUp(pid: nat)
    | PutSecret(pid: nat, secretOutcome: CallOutcome, secretMayArriveLater: bool)
    | PutProvider(pid: nat, reply: Result<Value, int>, applied: bool, mayArriveLater: bool)
    | UpdateRow(pid: nat, answered: bool)
    | Commit(pid: nat, commitOutcome: CallOutcome)
    | Crash(pid: nat, unfinished: set<Store>)
    | Refresh(refreshed: string, state: RowState)
    | ArriveLate(request: Request)

  /** Configuration: the organization, and the hash that keys the advisory lock. */
  datatype Config = Config(org: string, hash: string -> int)

  predicate CredentialValid(value: string) {
    value != [] && |value| <= 4096 && forall i :: 0 <= i < |value| ==> !IsControl(value[i])
  }

  /** Accept the provider's answer only for this organization and destination. */
  function VerifiedReady(value: Value, org: string, id: string): Result<bool, ApplyError> {
    if AsStr(At(value, "id")) != Some(id) || AsStr(At(value, "organization_id")) != Some(org) then Err(Unavailable)
    else if AsBool(At(value, "ready")).Some? then Ok(At(value, "ready").b)
    else Err(Unavailable)
  }

  function ProviderResult(c: Config, dest: string, reply: Result<Value, int>): Result<bool, ApplyError> {
    match reply
    case Ok(value) => VerifiedReady(value, c.org, dest)
    case Err(status) => Err(if status == 400 then BadRequest else if status == 409 then Conflict else Unavailable)
  }

  /** The writer is between taking the lock and releasing it. */
  predicate Inside(x: Writer) {
    x.Locked? || x.SecretStored? || x.ProviderStored? || x.RowUpdated?
  }

  predicate Active(x: Writer) {
    x.Waiting? || Inside(x)
  }

  function WriterOf(w: World, pid: nat): Writer {
    if pid in w.writers then w.writers[pid] else Crashed
  }

  function Become(w: World, pid: nat, x: Writer): World {
    w.(writers := w.writers[pid := x])
  }

  /** Leave the critical section: the transaction ends, so the lock is released. */
  function Leave(c: Config, w: World, pid: nat, x: Writer): World
    requires Active(WriterOf(w, pid))
  {
    var held := WriterOf(w, pid);
    var released := if Inside(held) then w.(locks := w.locks - {c.hash(held.dest)}) else w;
    Become(released, pid, x)
  }

  function Fail(c: Config, w: World, pid: nat, error: ApplyError): World
    requires Active(WriterOf(w, pid))
  {
    Leave(c, w, pid, Finished(WriterOf(w, pid).dest, WriterOf(w, pid).key, Err(error)))
  }

  function AcquireStep(c: Config, w: World, pid: nat): World {
    var x := WriterOf(w, pid);
    if !x.Waiting? || c.hash(x.dest) in w.locks then w
    else
      Become(w.(locks := w.locks[c.hash(x.dest) := pid], last := w.last[x.dest := Session(pid, x.key, false)]),
             pid, Locked(x.dest, x.key))
  }

  /** The transaction cannot begin, or waiting for the lock fails. */
  function GiveUpStep(c: Config, w: World, pid: nat): World {
    if WriterOf(w, pid).Waiting? then Fail(c, w, pid, Internal) else w
  }

  function PutSecretStep(c: Config, w: World, pid: nat, outcome: CallOutcome, mayArriveLater: bool): World {
    var x := WriterOf(w, pid);
    if !x.Locked? then w
    else
      var stored := if outcome.Succeeded? || outcome.applied then w.(secrets := w.secrets[x.dest := x.key]) else w;
      if outcome.Succeeded? then Become(stored, pid, SecretStored(x.dest, x.key))
      else
        var left := if mayArriveLater then stored.(late := stored.late + {Request(SecretManager, x.dest, x.key)}) else stored;
        Fail(c, left, pid, Unavailable)
  }

  /** A verified answer means the provider stored the key; any other answer leaves that open. */
  function PutProviderStep(
    c: Config, w: World, pid: nat, reply: Result<Value, int>, applied: bool, mayArriveLater: bool): World
  {
    var x := WriterOf(w, pid);
    if !x.SecretStored? then w
    else
      var result := ProviderResult(c, x.dest, reply);
      if result.Ok? then
        Become(w.(provider := w.provider[x.dest := x.key]), pid, ProviderStored(x.dest, x.key, result.value))
      else
        var sent := if applied then w.(provider := w.provider[x.dest := x.key]) else w;
        var left := if mayArriveLater then sent.(late := sent.late + {Request(Provider, x.dest, x.key)}) else sent;
        Fail(c, left, pid, result.error)
  }

  function RowOf(ready: bool): RowState { if ready then RowReady else RowPending }

  function UpdateRowStep(c: Config, w: World, pid: nat, answered: bool): World {
    var x := WriterOf(w, pid);
    if !x.ProviderStored? then w
    else if !answered then Fail(c, w, pid, Internal)
    else if x.dest !in w.rows then Fail(c, w, pid, NotFound)
    else Become(w, pid, RowUpdated(x.dest, x.key, x.ready))
  }

  /** The row change becomes visible with the commit; a lost acknowledgement may follow a real commit. */
  function CommitStep(c: Config, w: World, pid: nat, outcome: CallOutcome): World {
    var x := WriterOf(w, pid);
    if !x.RowUpdated? then w
    else
      var landed :=
        if outcome.Succeeded? || outcome.applied
        then w.(rows := w.rows[x.dest := RowOf(x.ready)], last := w.last[x.dest := Session(pid, x.key, true)])
        else w;
      if outcome.Succeeded? then Leave(c, landed, pid, Finished(x.dest, x.key, Ok(RowOf(x.ready))))
      else Fail(c, landed, pid, Internal)
  }

  function BeginStep(w: World, pid: nat, dest: string, key: Credential): World {
    if pid in w.writers then w
    else if !CredentialValid(key.accessKey) || !CredentialValid(key.secretKey)
    then Become(w, pid, Finished(dest, key, Err(BadRequest)))
    else Become(w, pid, Waiting(dest, key))
  }

  /**
  The writer stops, or its connection breaks and it goes on without the lock. What it had on its way to
  these stores, or still sends there, may arrive later.
  */
  function CrashStep(c: Config, w: World, pid: nat, unfinished: set<Store>): World {
    var x := WriterOf(w, pid);
    if !Active(x) then w
    else
      var sent := if Inside(x) then set store | store in unfinished :: Request(store, x.dest, x.key) else {};
      Leave(c, w.(late := w.late + sent), pid, Crashed)
  }

  /** The background refresh of a destination's readiness touches only its row. */
  function RefreshStep(w: World, dest: string, state: RowState): World {
    if dest in w.rows then w.(rows := w.rows[dest := state]) else w
  }

  function ArriveLateStep(w: World, request: Request): World {
    if request !in w.late then w
    else if request.store == SecretManager
    then w.(secrets := w.secrets[request.dest := request.key], late := w.late - {request})
    else w.(provider := w.provider[request.dest := request.key], late := w.late - {request})
  }

  function Step(c: Config, w: World, a: Action): World {
    match a
    case Begin(pid, dest, key) => BeginStep(w, pid, dest, key)
    case Acquire(pid) => AcquireStep(c, w, pid)
    case GiveUp(pid) => GiveUpStep(c, w, pid)
    case PutSecret(pid, outcome, later) => PutSecretStep(c, w, pid, outcome, later)
    case PutProvider(pid, reply, applied, later) => PutProviderStep(c, w, pid, reply, applied, later)
    case UpdateRow(pid, answered) => UpdateRowStep(c, w, pid, answered)
    case Commit(pid, outcome) => CommitStep(c, w, pid, outcome)
    case Crash(pid, unfinished) => CrashStep(c, w, pid, unfinished)
    case Refresh(dest, state) => RefreshStep(w, dest, state)
    case ArriveLate(request) => ArriveLateStep(w, request)
  }

  function Run(c: Config, w: World, actions: seq<Action>): World
    decreases |actions|
  {
    if actions == [] then w else Step(c, Run(c, w, actions[..|actions| - 1]), actions[|actions| - 1])
  }

  /** What a call leaves behind that failed after it took effect, or whose request is still on its way. */
  lemma FailedCallsMayTakeEffect(c: Config, w: World, pid: nat, status: int, later: bool)
    ensures var x, w' := WriterOf(w, pid), Step(c, w, PutSecret(pid, Failed(true), later));
            x.Locked? ==>
              && w'.secrets == w.secrets[x.dest := x.key] && w'.provider == w.provider && w'.rows == w.rows
              && w'.late == (if later then w.late + {Request(SecretManager, x.dest, x.key)} else w.late)
    ensures var x, w' := WriterOf(w, pid), Step(c, w, PutProvider(pid, Err(status), true, later));
            x.SecretStored? ==>
              && w'.provider == w.provider[x.dest := x.key] && w'.secrets == w.secrets && w'.rows == w.rows
              && w'.late == (if later then w.late + {Request(Provider, x.dest, x.key)} else w.late)
    ensures var x, w' := WriterOf(w, pid), Step(c, w, Commit(pid, Failed(true)));
            x.RowUpdated? ==> x.dest in w'.rows && w'.rows[x.dest] == (if x.ready then RowReady else RowPending)
  {
  }

  /** What others do to a destination: a refresh sets the row of a known one, a late request replaces the key. */
  lemma OthersTakeEffect(c: Config, w: World, dest: string, state: RowState, request: Request)
    ensures Step(c, w, Refresh(dest, state)) == if dest in w.rows then w.(rows := w.rows[dest := state]) else w
    ensures request in w.late ==>
              var w' := Step(c, w, ArriveLate(request));
              && w'.late == w.late - {request}
              && (request.store == SecretManager ==>
                    w'.secrets == w.secrets[request.dest := request.key] && w'.provider == w.provider)
              && (request.store == Provider ==>
                    w'.provider == w.provider[request.dest := request.key] && w'.secrets == w.secrets)
    ensures request !in w.late ==> Step(c, w, ArriveLate(request)) == w
  {
  }

  /** A writer that crashes or loses its lock leaves it, and its unfinished requests may arrive later. */
  lemma CrashesTakeEffect(c: Config, w: World, pid: nat, unfinished: set<Store>)
    requires Active(WriterOf(w, pid))
    ensures var x, w' := WriterOf(w, pid), Step(c, w, Crash(pid, unfinished));
            && pid in w'.writers && w'.writers[pid] == Crashed
            && w'.secrets == w.secrets && w'.provider == w.provider && w'.rows == w.rows
            && (Inside(x) ==> w'.locks == w.locks - {c.hash(x.dest)})
            && (forall r :: r in w'.late <==>
                  r in w.late || (Inside(x) && r.store in unfinished && r == Request(r.store, x.dest, x.key)))
  {
  }

  // ---------------------------------------------------------------- invariant

  /** The lock table holds exactly the writers inside. */
  ghost predicate LocksMatch(c: Config, w: World) {
    && (forall pid :: pid in w.writers && Inside(w.writers[pid]) ==>
          c.hash(w.writers[pid].dest) in w.locks && w.locks[c.hash(w.writers[pid].dest)] == pid)
    && (forall h :: h in w.locks ==>
          w.locks[h] in w.writers && Inside(w.writers[w.locks[h]]) && c.hash(w.writers[w.locks[h]].dest) == h)
  }

  /** The late arrival, if any, that this step is for this store. */
  function StrayWrite(w: World, store: Store, a: Action): Option<Request> {
    if a.ArriveLate? && a.request in w.late && a.request.store == store then Some(a.request) else None
  }

  /** The destination, if any, whose lock holder this store answered in this step that it has stored the key. */
  function OwnWrite(c: Config, w: World, store: Store, a: Action): Option<string> {
    match a
    case PutSecret(pid, outcome, _) =>
      if store == SecretManager && WriterOf(w, pid).Locked? && outcome.Succeeded? then Some(WriterOf(w, pid).dest) else None
    case PutProvider(pid, reply, _, _) =>
      var x := WriterOf(w, pid);
      if store == Provider && x.SecretStored? && ProviderResult(c, x.dest, reply).Ok? then Some(x.dest) else None
    case _ => None
  }

  /**
  Per store and destination, the key of the last late arrival since the store last answered a lock
  holder of that destination, if there was one.
  */
  datatype Strays = Strays(secrets: map<string, Credential>, provider: map<string, Credential>)

  const NONE := Strays(map[], map[])

  function Recorded(record: map<string, Credential>, stray: Option<Request>, own: Option<string>): map<string, Credential> {
    if stray.Some? then record[stray.value.dest := stray.value.key]
    else if own.Some? then record - {own.value}
    else record
  }

  function In(strays: Strays, store: Store): map<string, Credential> {
    if store == SecretManager then strays.secrets else strays.provider
  }

  function StraysAfter(c: Config, w: World, strays: Strays, a: Action): Strays {
    Strays(Recorded(strays.secrets, StrayWrite(w, SecretManager, a), OwnWrite(c, w, SecretManager, a)),
           Recorded(strays.provider, StrayWrite(w, Provider, a), OwnWrite(c, w, Provider, a)))
  }

  function StraysOf(c: Config, w: World, strays: Strays, actions: seq<Action>): Strays
    decreases |actions|
  {
    if actions == [] then strays
    else
      var before := actions[..|actions| - 1];
      StraysAfter(c, Run(c, w, before), StraysOf(c, w, strays, before), actions[|actions| - 1])
  }

  /** What a store holds after it answered a writer: the last stray arrival since, else the writer's key. */
  function Held(record: map<string, Credential>, dest: string, key: Credential): Credential {
    if dest in record then record[dest] else key
  }

  /** What a writer has stored is still there, up to strays: no other writer writes this destination meanwhile. */
  predicate ProgressOk(w: World, strays: Strays, pid: nat, x: Writer) {
    Inside(x) ==>
      && x.dest in w.last && w.last[x.dest] == Session(pid, x.key, false)
      && (!x.Locked? ==> x.dest in w.secrets && w.secrets[x.dest] == Held(strays.secrets, x.dest, x.key))
      && (x.ProviderStored? || x.RowUpdated? ==>
            x.dest in w.provider && w.provider[x.dest] == Held(strays.provider, x.dest, x.key))
  }

  predicate Settled(w: World, strays: Strays, dest: string) {
    dest in w.last && w.last[dest].committed ==>
      && dest in w.secrets && w.secrets[dest] == Held(strays.secrets, dest, w.last[dest].key)
      && dest in w.provider && w.provider[dest] == Held(strays.provider, dest, w.last[dest].key)
  }

  ghost predicate Inv(c: Config, w: World, strays: Strays) {
    && LocksMatch(c, w)
    && (forall pid :: pid in w.writers ==> ProgressOk(w, strays, pid, w.writers[pid]))
    && (forall dest :: dest in w.last ==> Settled(w, strays, dest))
  }

  /** Two writers are never inside for one destination, whatever the hash does. */
  lemma MutualExclusion(c: Config, w: World, p: nat, q: nat)
    requires LocksMatch(c, w) && p in w.writers && q in w.writers
    requires Inside(w.writers[p]) && Inside(w.writers[q]) && w.writers[p].dest == w.writers[q].dest
    ensures p == q
  {
  }

  /** A step that touches only the destination of one inside writer keeps everyone else's facts. */
  lemma OnlyOwnDestination(c: Config, w: World, w': World, strays: Strays, strays': Strays, pid: nat)
    requires Inv(c, w, strays) && LocksMatch(c, w')
    requires pid in w.writers && pid in w'.writers && w'.writers == w.writers[pid := w'.writers[pid]]
    requires Inside(w.writers[pid])
    requires strays'.secrets == strays.secrets || strays'.secrets == strays.secrets - {w.writers[pid].dest}
    requires strays'.provider == strays.provider || strays'.provider == strays.provider - {w.writers[pid].dest}
    requires forall d :: d != w.writers[pid].dest ==>
               && (d in w'.last <==> d in w.last) && (d in w.last ==> w'.last[d] == w.last[d])
               && (d in w'.secrets <==> d in w.secrets) && (d in w.secrets ==> w'.secrets[d] == w.secrets[d])
               && (d in w'.provider <==> d in w.provider) && (d in w.provider ==> w'.provider[d] == w.provider[d])
    requires ProgressOk(w', strays', pid, w'.writers[pid])
    requires Settled(w', strays', w.writers[pid].dest)
    ensures Inv(c, w', strays')
  {
    var dest := w.writers[pid].dest;
    forall q | q in w'.writers
      ensures ProgressOk(w', strays', q, w'.writers[q])
    {
      if q != pid && Inside(w'.writers[q]) && w'.writers[q].dest == dest {
        MutualExclusion(c, w, pid, q);
      }
    }
    forall d | d in w'.last
      ensures Settled(w', strays', d)
    {
      if d != dest {
        assert Settled(w, strays, d);
      }
    }
  }

  lemma AcquirePreserves(c: Config, w: World, strays: Strays, pid: nat)
    requires Inv(c, w, strays)
    ensures Inv(c, AcquireStep(c, w, pid), strays)
  {
    var w' := AcquireStep(c, w, pid);
    var x := WriterOf(w, pid);
    if x.Waiting? && c.hash(x.dest) !in w.locks {
      forall q | q in w'.writers
        ensures ProgressOk(w', strays, q, w'.writers[q])
      {
        if q != pid && Inside(w'.writers[q]) {
          assert w'.writers[q].dest != x.dest;
        }
      }
      forall d | d in w'.last
        ensures Settled(w', strays, d)
      {
        assert d != x.dest ==> Settled(w, strays, d);
      }
    }
  }

  /** An inside writer that moves keeps its lock while it stays inside, and gives it back when it leaves. */
  lemma LocksAfterMove(c: Config, w: World, w': World, pid: nat)
    requires LocksMatch(c, w) && pid in w.writers && Inside(w.writers[pid])
    requires pid in w'.writers && w'.writers == w.writers[pid := w'.writers[pid]]
    requires Inside(w'.writers[pid]) ==> w'.writers[pid].dest == w.writers[pid].dest && w'.locks == w.locks
    requires !Inside(w'.writers[pid]) ==> w'.locks == w.locks - {c.hash(w.writers[pid].dest)}
    ensures LocksMatch(c, w')
  {
  }

  lemma LeavePreservesLocks(c: Config, w: World, pid: nat, x: Writer)
    requires LocksMatch(c, w) && pid in w.writers && Active(w.writers[pid]) && !Inside(x)
    ensures LocksMatch(c, Leave(c, w, pid, x))
  {
  }

  lemma HeldOwn(record: map<string, Credential>, dest: string, key: Credential)
    ensures Held(record - {dest}, dest, key) == key
  {
  }

  lemma Uncommitted(w: World, strays: Strays, dest: string, pid: nat, key: Credential)
    ensures dest in w.last && w.last[dest] == Session(pid, key, false) ==> Settled(w, strays, dest)
  {
  }

  lemma SecretRecord(c: Config, w: World, strays: Strays, pid: nat, outcome: CallOutcome, later: bool)
    requires WriterOf(w, pid).Locked?
    ensures var strays' := StraysAfter(c, w, strays, PutSecret(pid, outcome, later));
            && strays'.provider == strays.provider
            && strays'.secrets == (if outcome.Succeeded? then strays.secrets - {WriterOf(w, pid).dest} else strays.secrets)
  {
  }

  lemma PutSecretShape(c: Config, w: World, pid: nat, outcome: CallOutcome, later: bool)
    requires WriterOf(w, pid).Locked?
    ensures var x := WriterOf(w, pid); var w' := PutSecretStep(c, w, pid, outcome, later);
            && w'.provider == w.provider && w'.last == w.last
            && pid in w'.writers && w'.writers == w.writers[pid := w'.writers[pid]]
            && (w'.secrets == w.secrets || w'.secrets == w.secrets[x.dest := x.key])
            && (if outcome.Succeeded?
                then w'.secrets == w.secrets[x.dest := x.key] && w'.writers[pid] == SecretStored(x.dest, x.key) && w'.locks == w.locks
                else w'.writers[pid].Finished? && w'.locks == w.locks - {c.hash(x.dest)})
  {
    var x := WriterOf(w, pid);
    var stored := if outcome.Succeeded? || outcome.applied then w.(secrets := w.secrets[x.dest := x.key]) else w;
    if outcome.Succeeded? {
      assert PutSecretStep(c, w, pid, outcome, later) == Become(stored, pid, SecretStored(x.dest, x.key));
    } else {
      var left := if later then stored.(late := stored.late + {Request(SecretManager, x.dest, x.key)}) else stored;
      assert PutSecretStep(c, w, pid, outcome, later) == Fail(c, left, pid, Unavailable);
      hide PutSecretStep;
    }
  }

  lemma PutSecretPreserves(c: Config, w: World, strays: Strays, pid: nat, outcome: CallOutcome, later: bool)
    requires Inv(c, w, strays)
    ensures Inv(c, PutSecretStep(c, w, pid, outcome, later), StraysAfter(c, w, strays, PutSecret(pid, outcome, later)))
  {
    var w' := PutSecretStep(c, w, pid, outcome, later);
    var strays' := StraysAfter(c, w, strays, PutSecret(pid, outcome, later));
    var x := WriterOf(w, pid);
    if x.Locked? {
      hide StraysAfter, Held, Settled, LocksMatch, PutSecretStep;
      PutSecretShape(c, w, pid, outcome, later);
      SecretRecord(c, w, strays, pid, outcome, later);
      HeldOwn(strays.secrets, x.dest, x.key);
      assert ProgressOk(w, strays, pid, w.writers[pid]);
      Uncommitted(w', strays', x.dest, pid, x.key);
      LocksAfterMove(c, w, w', pid);
      OnlyOwnDestination(c, w, w', strays, strays', pid);
    } else {
      assert w' == w && strays' == strays;
    }
  }

  lemma PutProviderPreserves(
    c: Config, w: World, strays: Strays, pid: nat, reply: Result<Value, int>, applied: bool, mayArriveLater: bool)
    requires Inv(c, w, strays)
    ensures Inv(c, PutProviderStep(c, w, pid, reply, applied, mayArriveLater),
                StraysAfter(c, w, strays, PutProvider(pid, reply, applied, mayArriveLater)))
  {
    hide ProviderResult;
    var w' := PutProviderStep(c, w, pid, reply, applied, mayArriveLater);
    var strays' := StraysAfter(c, w, strays, PutProvider(pid, reply, applied, mayArriveLater));
    if WriterOf(w, pid).SecretStored? {
      hide StraysAfter, Held, Settled, LocksMatch;
      ProviderRecord(c, w, strays, pid, reply, applied, mayArriveLater);
      HeldOwn(strays.provider, WriterOf(w, pid).dest, WriterOf(w, pid).key);
      assert ProgressOk(w, strays, pid, w.writers[pid]);
      Uncommitted(w', strays', WriterOf(w, pid).dest, pid, WriterOf(w, pid).key);
      LocksAfterMove(c, w, w', pid);
      OnlyOwnDestination(c, w, w', strays, strays', pid);
    }
  }

  lemma ProviderRecord(
    c: Config, w: World, strays: Strays, pid: nat, reply: Result<Value, int>, applied: bool, later: bool)
    requires WriterOf(w, pid).SecretStored?
    ensures var strays' := StraysAfter(c, w, strays, PutProvider(pid, reply, applied, later));
            && strays'.secrets == strays.secrets
            && strays'.provider == (if ProviderResult(c, WriterOf(w, pid).dest, reply).Ok?
                                    then strays.provider - {WriterOf(w, pid).dest} else strays.provider)
  {
    hide ProviderResult;
  }

  lemma UpdateRowPreserves(c: Config, w: World, strays: Strays, pid: nat, answered: bool)
    requires Inv(c, w, strays)
    ensures Inv(c, UpdateRowStep(c, w, pid, answered), strays)
  {
    hide Held;
    var w' := UpdateRowStep(c, w, pid, answered);
    if WriterOf(w, pid).ProviderStored? {
      assert ProgressOk(w, strays, pid, w.writers[pid]);
      LocksAfterMove(c, w, w', pid);
      OnlyOwnDestination(c, w, w', strays, strays, pid);
    }
  }

  lemma CommitPreserves(c: Config, w: World, strays: Strays, pid: nat, outcome: CallOutcome)
    requires Inv(c, w, strays)
    ensures Inv(c, CommitStep(c, w, pid, outcome), strays)
  {
    hide Held;
    var w' := CommitStep(c, w, pid, outcome);
    if WriterOf(w, pid).RowUpdated? {
      assert ProgressOk(w, strays, pid, w.writers[pid]);
      LocksAfterMove(c, w, w', pid);
      OnlyOwnDestination(c, w, w', strays, strays, pid);
    }
  }

  /** A writer that ends without a commit, waiting or inside, changes nothing but the locks. */
  lemma LeavingPreserves(c: Config, w: World, strays: Strays, pid: nat, unfinished: set<Store>)
    requires Inv(c, w, strays)
    ensures Inv(c, CrashStep(c, w, pid, unfinished), strays) && Inv(c, GiveUpStep(c, w, pid), strays)
  {
    hide Settled, ProgressOk, LocksMatch;
    if Active(WriterOf(w, pid)) {
      CrashLocks(c, w, pid, unfinished);
      QuietPreserves(c, w, CrashStep(c, w, pid, unfinished), strays);
    }
    if WriterOf(w, pid).Waiting? {
      LeavePreservesLocks(c, w, pid, Finished(WriterOf(w, pid).dest, WriterOf(w, pid).key, Err(Internal)));
      QuietPreserves(c, w, GiveUpStep(c, w, pid), strays);
    }
  }

  lemma CrashLocks(c: Config, w: World, pid: nat, unfinished: set<Store>)
    requires LocksMatch(c, w) && Active(WriterOf(w, pid))
    ensures LocksMatch(c, CrashStep(c, w, pid, unfinished))
  {
    LeavePreservesLocks(c, w, pid, Crashed);
    var left := Leave(c, w, pid, Crashed);
    assert CrashStep(c, w, pid, unfinished).locks == left.locks && CrashStep(c, w, pid, unfinished).writers == left.writers;
  }

  lemma QuietPreserves(c: Config, w: World, w': World, strays: Strays)
    requires Inv(c, w, strays) && LocksMatch(c, w')
    requires w'.last == w.last && w'.secrets == w.secrets && w'.provider == w.provider
    requires forall pid :: pid in w'.writers && Inside(w'.writers[pid]) ==>
               pid in w.writers && w'.writers[pid] == w.writers[pid]
    ensures Inv(c, w', strays)
  {
    hide Held, LocksMatch;
    forall d | d in w'.last
      ensures Settled(w', strays, d)
    {
      assert Settled(w, strays, d);
    }
    forall q | q in w'.writers
      ensures ProgressOk(w', strays, q, w'.writers[q])
    {
      assert q in w.writers ==> ProgressOk(w, strays, q, w.writers[q]);
    }
  }

  lemma BeginPreserves(c: Config, w: World, strays: Strays, pid: nat, dest: string, key: Credential)
    requires Inv(c, w, strays)
    ensures Inv(c, BeginStep(w, pid, dest, key), strays)
  {
    hide CredentialValid, Settled, ProgressOk, LocksMatch;
    if pid !in w.writers {
      var w' := BeginStep(w, pid, dest, key);
      var x := w'.writers[pid];
      assert w' == Become(w, pid, x) && !Inside(x);
      hide BeginStep;
      NewcomerHoldsNothing(c, w, pid, x);
      QuietPreserves(c, w, w', strays);
    }
  }

  lemma NewcomerHoldsNothing(c: Config, w: World, pid: nat, x: Writer)
    requires LocksMatch(c, w) && pid !in w.writers && !Inside(x)
    ensures LocksMatch(c, Become(w, pid, x))
  {
    var w' := Become(w, pid, x);
    forall h | h in w'.locks
      ensures w'.locks[h] in w'.writers && Inside(w'.writers[w'.locks[h]]) && c.hash(w'.writers[w'.locks[h]].dest) == h
    {
      assert w.locks[h] != pid;
    }
  }

  lemma RefreshPreserves(c: Config, w: World, strays: Strays, dest: string, state: RowState)
    requires Inv(c, w, strays)
    ensures Inv(c, RefreshStep(w, dest, state), strays)
  {
    hide Settled, ProgressOk;
    QuietPreserves(c, w, RefreshStep(w, dest, state), strays);
  }

  /** Writing a key into a store and recording it there as stray keeps what is known of every writer. */
  lemma StrayPreserves(c: Config, w: World, w': World, strays: Strays, strays': Strays)
    requires Inv(c, w, strays)
    requires w'.locks == w.locks && w'.writers == w.writers && w'.last == w.last
    requires forall d, key :: d in w.secrets && w.secrets[d] == Held(strays.secrets, d, key) ==>
               d in w'.secrets && w'.secrets[d] == Held(strays'.secrets, d, key)
    requires forall d, key :: d in w.provider && w.provider[d] == Held(strays.provider, d, key) ==>
               d in w'.provider && w'.provider[d] == Held(strays'.provider, d, key)
    ensures Inv(c, w', strays')
  {
    hide Held;
    forall q | q in w'.writers
      ensures ProgressOk(w', strays', q, w'.writers[q])
    {
      assert ProgressOk(w, strays, q, w.writers[q]);
    }
    forall d | d in w'.last
      ensures Settled(w', strays', d)
    {
      assert Settled(w, strays, d);
    }
  }

  /** A late arrival overwrites what a store holds, and is remembered. */
  lemma ArriveLatePreserves(c: Config, w: World, strays: Strays, request: Request)
    requires Inv(c, w, strays)
    ensures Inv(c, ArriveLateStep(w, request), StraysAfter(c, w, strays, ArriveLate(request)))
  {
    hide Inv, Held;
    if request in w.late {
      OneStray(w.secrets, strays.secrets, request.dest, request.key);
      OneStray(w.provider, strays.provider, request.dest, request.key);
      StrayPreserves(c, w, ArriveLateStep(w, request), strays, StraysAfter(c, w, strays, ArriveLate(request)));
    }
  }

  lemma OneStray(m: map<string, Credential>, record: map<string, Credential>, dest: string, late: Credential)
    ensures forall d, key :: d in m && m[d] == Held(record, d, key) ==>
              d in m[dest := late] && m[dest := late][d] == Held(record[dest := late], d, key)
  {
  }

  lemma StepPreserves(c: Config, w: World, strays: Strays, a: Action)
    requires Inv(c, w, strays)
    ensures Inv(c, Step(c, w, a), StraysAfter(c, w, strays, a))
  {
    hide Inv, BeginStep, AcquireStep, GiveUpStep, PutSecretStep, PutProviderStep, UpdateRowStep, CommitStep, CrashStep,
         RefreshStep, ArriveLateStep;
    match a {
      case Begin(pid, dest, key) => BeginPreserves(c, w, strays, pid, dest, key);
      case Acquire(pid) => AcquirePreserves(c, w, strays, pid);
      case GiveUp(pid) => LeavingPreserves(c, w, strays, pid, {});
      case PutSecret(pid, outcome, later) => PutSecretPreserves(c, w, strays, pid, outcome, later);
      case PutProvider(pid, reply, applied, later) => PutProviderPreserves(c, w, strays, pid, reply, applied, later);
      case UpdateRow(pid, answered) => UpdateRowPreserves(c, w, strays, pid, answered);
      case Commit(pid, outcome) => CommitPreserves(c, w, strays, pid, outcome);
      case Crash(pid, unfinished) => LeavingPreserves(c, w, strays, pid, unfinished);
      case Refresh(dest, state) => RefreshPreserves(c, w, strays, dest, state);
      case ArriveLate(request) => ArriveLatePreserves(c, w, strays, request);
    }
  }

  lemma {:induction false} RunPreserves(c: Config, w: World, strays: Strays, actions: seq<Action>)
    requires Inv(c, w, strays)
    ensures Inv(c, Run(c, w, actions), StraysOf(c, w, strays, actions))
    decreases |actions|
  {
    hide Inv, Step, StraysAfter;
    if actions != [] {
      var before := actions[..|actions| - 1];
      RunPreserves(c, w, strays, before);
      StepPreserves(c, Run(c, w, before), StraysOf(c, w, strays, before), actions[|actions| - 1]);
    }
  }

  // ---------------------------------------------------------------- main results

  /** The secret manager and the provider hold this key. */
  predicate BothHold(w: World, dest: string, key: Credential) {
    dest in w.secrets && w.secrets[dest] == key && dest in w.provider && w.provider[dest] == key
  }

  /** No stray write, or a last one with this very key. */
  predicate Unharmed(record: map<string, Credential>, dest: string, key: Credential) {
    dest !in record || record[dest] == key
  }

  /**
  Agreement, exactly. In every interleaving of any number of writers, of writers that lose their lock
  and of requests that arrive late, for any hash (also a colliding one): whenever the lock of a
  destination is free and the last writer to hold it committed, each of the two stores holds that
  writer's key if and only if no stray request has arrived there since the store answered that
  writer, or the last one that did carries the writer's key.
  */
  lemma AgreementExactly(c: Config, w: World, actions: seq<Action>, dest: string)
    requires Inv(c, w, NONE)
    ensures var v := Run(c, w, actions);
            var strays := StraysOf(c, w, NONE, actions);
            c.hash(dest) !in v.locks && dest in v.last && v.last[dest].committed ==>
              && dest in v.secrets && dest in v.provider
              && (v.secrets[dest] == v.last[dest].key <==> Unharmed(strays.secrets, dest, v.last[dest].key))
              && (v.provider[dest] == v.last[dest].key <==> Unharmed(strays.provider, dest, v.last[dest].key))
  {
    hide Run, StraysOf;
    RunPreserves(c, w, NONE, actions);
    assert dest in Run(c, w, actions).last ==> Settled(Run(c, w, actions), StraysOf(c, w, NONE, actions), dest);
  }

  /** A request of the destination arrived late at the store at position i. */
  predicate StrayAt(c: Config, w: World, actions: seq<Action>, i: nat, store: Store, dest: string, key: Credential) {
    i < |actions| && StrayWrite(Run(c, w, actions[..i]), store, actions[i]) == Some(Request(store, dest, key))
  }

  /** The store answered a lock holder of the destination at position i. */
  predicate AnsweredAt(c: Config, w: World, actions: seq<Action>, i: nat, store: Store, dest: string) {
    i < |actions| && OwnWrite(c, Run(c, w, actions[..i]), store, actions[i]) == Some(dest)
  }

  /** After position i the destination saw neither another late arrival nor an answer of the store. */
  ghost predicate LastSince(c: Config, w: World, actions: seq<Action>, i: nat, store: Store, dest: string) {
    && (forall j: nat :: i < j < |actions| ==> !AnsweredAt(c, w, actions, j, store, dest))
    && (forall j: nat, key :: i < j < |actions| ==> !StrayAt(c, w, actions, j, store, dest, key))
  }

  ghost predicate IsLastStray(
    c: Config, w: World, actions: seq<Action>, store: Store, dest: string, key: Credential)
  {
    exists i: nat :: StrayAt(c, w, actions, i, store, dest, key) && LastSince(c, w, actions, i, store, dest)
  }

  lemma SnocPositions(c: Config, w: World, before: seq<Action>, a: Action, store: Store, dest: string)
    ensures forall i: nat, key :: i < |before| ==>
              (StrayAt(c, w, before + [a], i, store, dest, key) <==> StrayAt(c, w, before, i, store, dest, key))
    ensures forall i: nat :: i < |before| ==>
              (AnsweredAt(c, w, before + [a], i, store, dest) <==> AnsweredAt(c, w, before, i, store, dest))
  {
    hide Run, StrayWrite, OwnWrite;
    assert forall i: nat :: i < |before| ==> (before + [a])[..i] == before[..i];
  }

  lemma SnocLast(c: Config, w: World, before: seq<Action>, a: Action, store: Store, dest: string, key: Credential)
    ensures StrayAt(c, w, before + [a], |before|, store, dest, key) <==>
            StrayWrite(Run(c, w, before), store, a) == Some(Request(store, dest, key))
    ensures AnsweredAt(c, w, before + [a], |before|, store, dest) <==> OwnWrite(c, Run(c, w, before), store, a) == Some(dest)
  {
    hide StrayWrite, OwnWrite, Run;
    assert (before + [a])[..|before|] == before;
  }

  lemma StrayStep(c: Config, w: World, before: seq<Action>, a: Action, store: Store, dest: string, key: Credential)
    ensures IsLastStray(c, w, before + [a], store, dest, key) <==>
            || StrayAt(c, w, before + [a], |before|, store, dest, key)
            || (IsLastStray(c, w, before, store, dest, key) && !AnsweredAt(c, w, before + [a], |before|, store, dest)
                && forall other :: !StrayAt(c, w, before + [a], |before|, store, dest, other))
  {
    SnocPositions(c, w, before, a, store, dest);
    hide StrayWrite, OwnWrite, Run;
    assert forall i: nat, k :: StrayAt(c, w, before, i, store, dest, k) ==> i < |before|;
    assert forall i: nat, k :: StrayAt(c, w, before + [a], i, store, dest, k) ==> i <= |before|;
    hide StrayAt, AnsweredAt;
    if StrayAt(c, w, before + [a], |before|, store, dest, key) {
      assert LastSince(c, w, before + [a], |before|, store, dest);
    } else if IsLastStray(c, w, before + [a], store, dest, key) {
      var i: nat :| StrayAt(c, w, before + [a], i, store, dest, key) && LastSince(c, w, before + [a], i, store, dest);
      assert LastSince(c, w, before, i, store, dest);
    } else if IsLastStray(c, w, before, store, dest, key) {
      var i: nat :| StrayAt(c, w, before, i, store, dest, key) && LastSince(c, w, before, i, store, dest);
      assert StrayAt(c, w, before + [a], i, store, dest, key) && !LastSince(c, w, before + [a], i, store, dest);
    }
  }

  /** Read off the run: the record names a key exactly when that request was the destination's last such event. */
  lemma {:induction false} StraysAreLastArrivals(
    c: Config, w: World, actions: seq<Action>, store: Store, dest: string, key: Credential)
    ensures var record := In(StraysOf(c, w, NONE, actions), store);
            (dest in record && record[dest] == key) <==> IsLastStray(c, w, actions, store, dest, key)
    decreases |actions|
  {
    hide Run, StrayAt, AnsweredAt, LastSince, IsLastStray, OwnWrite, StrayWrite;
    if actions == [] {
      NoneYet(c, w, store, dest, key);
    } else {
      var before, a := actions[..|actions| - 1], actions[|actions| - 1];
      assert before + [a] == actions;
      StraysAreLastArrivals(c, w, before, store, dest, key);
      StrayStep(c, w, before, a, store, dest, key);
      forall other {
        SnocLast(c, w, before, a, store, dest, other);
      }
      StrayIsNotOwn(c, Run(c, w, before), store, a);
    }
  }

  lemma StrayIsNotOwn(c: Config, w: World, store: Store, a: Action)
    ensures StrayWrite(w, store, a).Some? ==>
              StrayWrite(w, store, a).value.store == store && OwnWrite(c, w, store, a) == None
  {
    hide ProviderResult;
  }

  lemma NoneYet(c: Config, w: World, store: Store, dest: string, key: Credential)
    ensures !IsLastStray(c, w, [], store, dest, key)
  {
  }

  /** No request takes effect after its sender has let go of the lock. */
  ghost predicate CallsFinish(actions: seq<Action>) {
    forall i :: 0 <= i < |actions| ==> !actions[i].ArriveLate?
  }

  ghost predicate Fewer(strays: Strays, others: Strays) {
    strays.secrets.Keys <= others.secrets.Keys && strays.provider.Keys <= others.provider.Keys
  }

  lemma OnlyArrivalsAdd(c: Config, w: World, strays: Strays, a: Action)
    requires !a.ArriveLate?
    ensures Fewer(StraysAfter(c, w, strays, a), strays)
  {
    hide OwnWrite;
  }

  lemma {:induction false} NoStrays(c: Config, w: World, strays: Strays, actions: seq<Action>)
    requires CallsFinish(actions)
    ensures Fewer(StraysOf(c, w, strays, actions), strays)
    decreases |actions|
  {
    hide Run, StraysAfter;
    if actions != [] {
      var before := actions[..|actions| - 1];
      NoStrays(c, w, strays, before);
      OnlyArrivalsAdd(c, Run(c, w, before), StraysOf(c, w, strays, before), actions[|actions| - 1]);
    }
  }

  /** So if requests finish under the lock, the stores agree whenever it is free and its last holder committed. */
  lemma StoresAgreeWhenLockIsFree(c: Config, w: World, actions: seq<Action>, dest: string)
    requires Inv(c, w, NONE) && CallsFinish(actions)
    ensures var v := Run(c, w, actions);
            c.hash(dest) !in v.locks && dest in v.last && v.last[dest].committed ==> BothHold(v, dest, v.last[dest].key)
  {
    hide Run, StraysOf, Inv, CallsFinish;
    AgreementExactly(c, w, actions, dest);
    NoStrays(c, w, NONE, actions);
  }

  /**
  Repair. Whatever earlier failures and late arrivals left behind, a commit that lands makes the row that
  of its writer, and each store too unless a stray request arrived there since it answered this writer.
  */
  lemma CommitRepairs(c: Config, w: World, strays: Strays, pid: nat, outcome: CallOutcome)
    requires LocksMatch(c, w) && ProgressOk(w, strays, pid, WriterOf(w, pid))
    requires WriterOf(w, pid).RowUpdated? && (outcome.Succeeded? || outcome.applied)
    ensures var x := WriterOf(w, pid); var v := Step(c, w, Commit(pid, outcome));
            && x.dest in v.secrets && v.secrets[x.dest] == Held(strays.secrets, x.dest, x.key)
            && x.dest in v.provider && v.provider[x.dest] == Held(strays.provider, x.dest, x.key)
            && x.dest in v.rows && v.rows[x.dest] == RowOf(x.ready)
            && x.dest in v.last && v.last[x.dest] == Session(pid, x.key, true)
            && c.hash(x.dest) !in v.locks
            && (outcome.Succeeded? <==> v.writers[pid] == Finished(x.dest, x.key, Ok(RowOf(x.ready))))
  {
  }

  /** In particular the next writer that both stores answer, with nothing stray after, repairs every earlier harm. */
  lemma NextWriterRecovers(c: Config, w: World, actions: seq<Action>, pid: nat, outcome: CallOutcome)
    requires Inv(c, w, NONE) && WriterOf(Run(c, w, actions), pid).RowUpdated? && (outcome.Succeeded? || outcome.applied)
    requires forall store, key :: !IsLastStray(c, w, actions, store, WriterOf(Run(c, w, actions), pid).dest, key)
    ensures var x := WriterOf(Run(c, w, actions), pid);
            BothHold(Step(c, Run(c, w, actions), Commit(pid, outcome)), x.dest, x.key)
  {
    hide Run, StraysOf, Step, IsLastStray;
    var v, strays := Run(c, w, actions), StraysOf(c, w, NONE, actions);
    var dest := WriterOf(v, pid).dest;
    RunPreserves(c, w, NONE, actions);
    if dest in strays.secrets {
      StraysAreLastArrivals(c, w, actions, SecretManager, dest, strays.secrets[dest]);
    }
    if dest in strays.provider {
      StraysAreLastArrivals(c, w, actions, Provider, dest, strays.provider[dest]);
    }
    assert ProgressOk(v, strays, pid, v.writers[pid]);
    CommitRepairs(c, v, strays, pid, outcome);
  }

  /** The session of a finished writer is kept until another writer takes the lock. */
  predicate Retained(w: World, dest: string, session: Session) {
    && session.writer in w.writers && !Active(w.writers[session.writer])
    && dest in w.last
    && (w.last[dest] == session || w.last[dest].writer != session.writer)
  }

  // A finished writer no longer acts, and an acting writer claims only its own session.

  lemma RetainedByAcquire(c: Config, w: World, pid: nat, dest: string, session: Session)
    requires Retained(w, dest, session)
    ensures Retained(AcquireStep(c, w, pid), dest, session)
  {
    hide ProviderResult, CredentialValid;
    assert Active(WriterOf(w, pid)) ==> pid != session.writer;
  }

  lemma RetainedByPutSecret(
    c: Config, w: World, pid: nat, outcome: CallOutcome, later: bool, dest: string, session: Session)
    requires Retained(w, dest, session)
    ensures Retained(PutSecretStep(c, w, pid, outcome, later), dest, session)
  {
    hide ProviderResult, CredentialValid;
    assert Active(WriterOf(w, pid)) ==> pid != session.writer;
  }

  lemma RetainedByPutProvider(
    c: Config, w: World, pid: nat, reply: Result<Value, int>, applied: bool, later: bool, dest: string, session: Session)
    requires Retained(w, dest, session)
    ensures Retained(PutProviderStep(c, w, pid, reply, applied, later), dest, session)
  {
    hide ProviderResult, CredentialValid;
    assert Active(WriterOf(w, pid)) ==> pid != session.writer;
  }

  lemma RetainedByUpdateRow(c: Config, w: World, pid: nat, answered: bool, dest: string, session: Session)
    requires Retained(w, dest, session)
    ensures Retained(UpdateRowStep(c, w, pid, answered), dest, session)
  {
    hide ProviderResult, CredentialValid;
    assert Active(WriterOf(w, pid)) ==> pid != session.writer;
  }

  lemma RetainedByCommit(c: Config, w: World, pid: nat, outcome: CallOutcome, dest: string, session: Session)
    requires Retained(w, dest, session)
    ensures Retained(CommitStep(c, w, pid, outcome), dest, session)
  {
    hide ProviderResult, CredentialValid;
    assert Active(WriterOf(w, pid)) ==> pid != session.writer;
  }

  lemma RetainedByCrash(c: Config, w: World, pid: nat, unfinished: set<Store>, dest: string, session: Session)
    requires Retained(w, dest, session)
    ensures Retained(CrashStep(c, w, pid, unfinished), dest, session) && Retained(GiveUpStep(c, w, pid), dest, session)
  {
    hide ProviderResult, CredentialValid;
    assert Active(WriterOf(w, pid)) ==> pid != session.writer;
  }

  lemma RetainedByStep(c: Config, w: World, a: Action, dest: string, session: Session)
    requires Retained(w, dest, session)
    ensures Retained(Step(c, w, a), dest, session)
  {
    hide AcquireStep, GiveUpStep, PutSecretStep, PutProviderStep, UpdateRowStep, CommitStep, CrashStep, CredentialValid;
    match a {
      case GiveUp(pid) => RetainedByCrash(c, w, pid, {}, dest, session);
      case Acquire(pid) => RetainedByAcquire(c, w, pid, dest, session);
      case PutSecret(pid, outcome, later) => RetainedByPutSecret(c, w, pid, outcome, later, dest, session);
      case PutProvider(pid, reply, applied, later) => RetainedByPutProvider(c, w, pid, reply, applied, later, dest, session);
      case UpdateRow(pid, answered) => RetainedByUpdateRow(c, w, pid, answered, dest, session);
      case Commit(pid, outcome) => RetainedByCommit(c, w, pid, outcome, dest, session);
      case Crash(pid, unfinished) => RetainedByCrash(c, w, pid, unfinished, dest, session);
      case _ =>
    }
  }

  lemma {:induction false} RetainedByRun(c: Config, w: World, actions: seq<Action>, dest: string, session: Session)
    requires Retained(w, dest, session)
    ensures Retained(Run(c, w, actions), dest, session)
    decreases |actions|
  {
    hide Step, Retained;
    if actions != [] {
      RetainedByRun(c, w, actions[..|actions| - 1], dest, session);
      RetainedByStep(c, Run(c, w, actions[..|actions| - 1]), actions[|actions| - 1], dest, session);
    }
  }

  /**
  A committed key stays in force until another writer of that destination takes the lock: in each store
  exactly as long as no stray request with another key arrives there last.
  */
  lemma InForceUntilNextHolder(c: Config, w: World, strays: Strays, actions: seq<Action>, dest: string)
    requires Inv(c, w, strays)
    requires dest in w.last && w.last[dest].committed
    requires w.last[dest].writer in w.writers && !Active(w.writers[w.last[dest].writer])
    ensures var v := Run(c, w, actions);
            var later := StraysOf(c, w, strays, actions);
            && dest in v.last
            && (v.last[dest].writer == w.last[dest].writer ==>
                  && dest in v.secrets && dest in v.provider
                  && (v.secrets[dest] == w.last[dest].key <==> Unharmed(later.secrets, dest, w.last[dest].key))
                  && (v.provider[dest] == w.last[dest].key <==> Unharmed(later.provider, dest, w.last[dest].key)))
  {
    hide Step, StraysOf, Run;
    RetainedByRun(c, w, actions, dest, w.last[dest]);
    RunPreserves(c, w, strays, actions);
    assert Settled(Run(c, w, actions), StraysOf(c, w, strays, actions), dest);
  }

  // ---------------------------------------------------------------- when requests arrive late

  lemma RunSnoc(c: Config, w: World, actions: seq<Action>, a: Action)
    ensures Run(c, w, actions + [a]) == Step(c, Run(c, w, actions), a)
  {
    hide Step;
    assert (actions + [a])[..|actions + [a]| - 1] == actions;
  }

  lemma {:induction false} RunAppend(c: Config, w: World, s: seq<Action>, t: seq<Action>)
    ensures Run(c, w, s + t) == Run(c, Run(c, w, s), t)
    decreases |t|
  {
    hide Step;
    if t == [] {
      assert s + t == s;
    } else {
      var t' := t[..|t| - 1];
      RunAppend(c, w, s, t');
      assert (s + t)[..|s + t| - 1] == s + t';
    }
  }

  const FRESH := World(map[], map[], map[], map[], map[], map[], {})

  function TimesOut(dest: string, key: Credential): seq<Action> {
    [Begin(1, dest, key), Acquire(1), PutSecret(1, Succeeded, false), PutProvider(1, Err(0), false, true)]
  }

  function Commits(dest: string, key: Credential, ready: Value): seq<Action> {
    [Begin(2, dest, key), Acquire(2), PutSecret(2, Succeeded, false), PutProvider(2, Ok(ready), true, false),
     UpdateRow(2, true), Commit(2, Succeeded)]
  }

  lemma FirstWriterStates(c: Config, w: World, dest: string, key: Credential)
    requires w == FRESH.(rows := map[dest := RowPending])
    requires CredentialValid(key.accessKey) && CredentialValid(key.secretKey)
    ensures var s3 := Step(c, Step(c, Step(c, w, Begin(1, dest, key)), Acquire(1)), PutSecret(1, Succeeded, false));
            var v := Step(c, s3, PutProvider(1, Err(0), false, true));
            v.locks == map[] && v.rows == w.rows && 2 !in v.writers && v.late == {Request(Provider, dest, key)}
  {
    hide CredentialValid;
    var s1 := Step(c, w, Begin(1, dest, key));
    assert s1 == w.(writers := map[1 := Waiting(dest, key)]);
    var s2 := Step(c, s1, Acquire(1));
    assert s2.writers == map[1 := Locked(dest, key)] && s2.locks == map[c.hash(dest) := 1];
    var s3 := Step(c, s2, PutSecret(1, Succeeded, false));
    assert s3.writers == map[1 := SecretStored(dest, key)] && s3.locks == map[c.hash(dest) := 1];
  }

  lemma FirstWriterTimesOut(c: Config, w: World, dest: string, key: Credential)
    requires w == FRESH.(rows := map[dest := RowPending])
    requires CredentialValid(key.accessKey) && CredentialValid(key.secretKey)
    ensures var v := Run(c, w, TimesOut(dest, key));
            v.locks == map[] && v.rows == w.rows && 2 !in v.writers && v.late == {Request(Provider, dest, key)}
  {
    hide CredentialValid, Step;
    FirstWriterStates(c, w, dest, key);
    var a := TimesOut(dest, key);
    assert Run(c, w, []) == w;
    RunSnoc(c, w, [], a[0]);
    RunSnoc(c, w, a[..1], a[1]);
    RunSnoc(c, w, a[..2], a[2]);
    RunSnoc(c, w, a[..3], a[3]);
    assert [] + [a[0]] == a[..1] && a[..1] + [a[1]] == a[..2] && a[..2] + [a[2]] == a[..3] && a[..3] + [a[3]] == a;
  }

  /** The first half of a writer that meets no failure: lock and secret. */
  lemma SecondWriterStarts(c: Config, w: World, dest: string, key: Credential)
    requires w.locks == map[] && dest in w.rows && 2 !in w.writers
    requires CredentialValid(key.accessKey) && CredentialValid(key.secretKey)
    ensures var v := Step(c, Step(c, Step(c, w, Begin(2, dest, key)), Acquire(2)), PutSecret(2, Succeeded, false));
            && v.locks == map[c.hash(dest) := 2] && v.late == w.late && v.rows == w.rows
            && 2 in v.writers && v.writers[2] == SecretStored(dest, key)
            && dest in v.secrets && v.secrets[dest] == key
  {
    hide CredentialValid;
  }

  /** The second half: provider, row and commit. */
  lemma SecondWriterEnds(c: Config, w: World, dest: string, key: Credential, ready: Value)
    requires w.locks == map[c.hash(dest) := 2] && dest in w.rows
    requires 2 in w.writers && w.writers[2] == SecretStored(dest, key)
    requires dest in w.secrets && w.secrets[dest] == key
    requires VerifiedReady(ready, c.org, dest) == Ok(true)
    ensures var s5 := Step(c, Step(c, w, PutProvider(2, Ok(ready), true, false)), UpdateRow(2, true));
            var v := Step(c, s5, Commit(2, Succeeded));
            && v.locks == map[] && v.late == w.late
            && 2 in v.writers && v.writers[2] == Finished(dest, key, Ok(RowReady))
            && dest in v.last && v.last[dest] == Session(2, key, true)
            && dest in v.secrets && v.secrets[dest] == key
  {
    hide VerifiedReady;
    var s4 := Step(c, w, PutProvider(2, Ok(ready), true, false));
    assert s4.writers[2] == ProviderStored(dest, key, true);
    var s5 := Step(c, s4, UpdateRow(2, true));
    assert s5.writers[2] == RowUpdated(dest, key, true) && s5.locks == w.locks;
  }

  lemma SecondWriterCommits(c: Config, w: World, dest: string, key: Credential, ready: Value)
    requires w.locks == map[] && dest in w.rows && 2 !in w.writers
    requires CredentialValid(key.accessKey) && CredentialValid(key.secretKey)
    requires VerifiedReady(ready, c.org, dest) == Ok(true)
    ensures var v := Run(c, w, Commits(dest, key, ready));
            && v.locks == map[] && v.late == w.late
            && 2 in v.writers && v.writers[2] == Finished(dest, key, Ok(RowReady))
            && dest in v.last && v.last[dest] == Session(2, key, true)
            && dest in v.secrets && v.secrets[dest] == key
  {
    hide CredentialValid, VerifiedReady, Step;
    SecondWriterStarts(c, w, dest, key);
    var s3 := Step(c, Step(c, Step(c, w, Begin(2, dest, key)), Acquire(2)), PutSecret(2, Succeeded, false));
    SecondWriterEnds(c, s3, dest, key, ready);
    var a := Commits(dest, key, ready);
    assert Run(c, w, []) == w;
    RunSnoc(c, w, [], a[0]);
    RunSnoc(c, w, a[..1], a[1]);
    RunSnoc(c, w, a[..2], a[2]);
    RunSnoc(c, w, a[..3], a[3]);
    RunSnoc(c, w, a[..4], a[4]);
    RunSnoc(c, w, a[..5], a[5]);
    assert [] + [a[0]] == a[..1] && a[..1] + [a[1]] == a[..2] && a[..2] + [a[2]] == a[..3];
    assert a[..3] + [a[3]] == a[..4] && a[..4] + [a[4]] == a[..5] && a[..5] + [a[5]] == a;
  }

  /**
  The assumption is needed. When a timed-out provider request arrives after its writer has released
  the lock, a later writer can commit and be told `Ok` while the provider holds the older key.
  */
  lemma LateArrivalBreaksAgreement(c: Config, dest: string, k1: Credential, k2: Credential, ready: Value)
    requires k1 != k2
    requires CredentialValid(k1.accessKey) && CredentialValid(k1.secretKey)
    requires CredentialValid(k2.accessKey) && CredentialValid(k2.secretKey)
    requires VerifiedReady(ready, c.org, dest) == Ok(true)
    ensures var w := FRESH.(rows := map[dest := RowPending]);
            var v := Run(c, w, TimesOut(dest, k1) + Commits(dest, k2, ready) + [ArriveLate(Request(Provider, dest, k1))]);
            && Inv(c, w, NONE)
            && v.locks == map[]
            && 2 in v.writers && v.writers[2] == Finished(dest, k2, Ok(RowReady))
            && dest in v.last && v.last[dest] == Session(2, k2, true)
            && dest in v.secrets && v.secrets[dest] == k2
            && dest in v.provider && v.provider[dest] == k1
  {
    hide CredentialValid, VerifiedReady, TimesOut, Commits, Run;
    var w := FRESH.(rows := map[dest := RowPending]);
    FirstWriterTimesOut(c, w, dest, k1);
    SecondWriterCommits(c, Run(c, w, TimesOut(dest, k1)), dest, k2, ready);
    RunAppend(c, w, TimesOut(dest, k1), Commits(dest, k2, ready));
    RunSnoc(c, w, TimesOut(dest, k1) + Commits(dest, k2, ready), ArriveLate(Request(Provider, dest, k1)));
  }

  /** The same when it arrives inside the later writer's critical section, after the provider answered that writer. */
  function Interrupted(dest: string, key: Credential, ready: Value, late: Credential): seq<Action> {
    [Begin(2, dest, key), Acquire(2), PutSecret(2, Succeeded, false), PutProvider(2, Ok(ready), true, false),
     ArriveLate(Request(Provider, dest, late)), UpdateRow(2, true), Commit(2, Succeeded)]
  }

  /** The second writer holds the lock and the provider has answered it. */
  predicate Answered(c: Config, w: World, dest: string, key: Credential) {
    && w.locks == map[c.hash(dest) := 2] && dest in w.rows
    && 2 in w.writers && w.writers[2] == ProviderStored(dest, key, true)
    && dest in w.secrets && w.secrets[dest] == key
  }

  lemma SecondWriterAnswered(c: Config, w: World, dest: string, key: Credential, ready: Value, late: Credential)
    requires w.locks == map[c.hash(dest) := 2] && dest in w.rows && Request(Provider, dest, late) in w.late
    requires 2 in w.writers && w.writers[2] == SecretStored(dest, key)
    requires dest in w.secrets && w.secrets[dest] == key
    requires VerifiedReady(ready, c.org, dest) == Ok(true)
    ensures var v := Step(c, Step(c, w, PutProvider(2, Ok(ready), true, false)), ArriveLate(Request(Provider, dest, late)));
            Answered(c, v, dest, key) && dest in v.provider && v.provider[dest] == late
  {
    hide VerifiedReady;
    var s4 := Step(c, w, PutProvider(2, Ok(ready), true, false));
    assert Answered(c, s4, dest, key) && s4.late == w.late;
  }

  lemma SecondWriterSettles(c: Config, w: World, dest: string, key: Credential)
    requires Answered(c, w, dest, key)
    ensures var v := Step(c, Step(c, w, UpdateRow(2, true)), Commit(2, Succeeded));
            && v.locks == map[] && v.provider == w.provider
            && 2 in v.writers && v.writers[2] == Finished(dest, key, Ok(RowReady))
            && dest in v.last && v.last[dest] == Session(2, key, true)
            && dest in v.secrets && v.secrets[dest] == key
  {
    var s6 := Step(c, w, UpdateRow(2, true));
    assert s6.writers[2] == RowUpdated(dest, key, true) && s6.locks == w.locks && s6.provider == w.provider;
  }

  lemma InterruptedRun(c: Config, w: World, dest: string, key: Credential, ready: Value, late: Credential)
    ensures var a := Interrupted(dest, key, ready, late);
            var s3 := Step(c, Step(c, Step(c, w, a[0]), a[1]), a[2]);
            Run(c, w, a) == Step(c, Step(c, Step(c, Step(c, s3, a[3]), a[4]), a[5]), a[6])
  {
    hide Step;
    var a := Interrupted(dest, key, ready, late);
    assert Run(c, w, []) == w;
    RunSnoc(c, w, [], a[0]);
    RunSnoc(c, w, a[..1], a[1]);
    RunSnoc(c, w, a[..2], a[2]);
    RunSnoc(c, w, a[..3], a[3]);
    RunSnoc(c, w, a[..4], a[4]);
    RunSnoc(c, w, a[..5], a[5]);
    RunSnoc(c, w, a[..6], a[6]);
    assert [] + [a[0]] == a[..1] && a[..1] + [a[1]] == a[..2] && a[..2] + [a[2]] == a[..3] && a[..3] + [a[3]] == a[..4];
    assert a[..4] + [a[4]] == a[..5] && a[..5] + [a[5]] == a[..6] && a[..6] + [a[6]] == a;
  }

  lemma ArrivalBeforeCommitBreaksAgreement(c: Config, dest: string, k1: Credential, k2: Credential, ready: Value)
    requires k1 != k2
    requires CredentialValid(k1.accessKey) && CredentialValid(k1.secretKey)
    requires CredentialValid(k2.accessKey) && CredentialValid(k2.secretKey)
    requires VerifiedReady(ready, c.org, dest) == Ok(true)
    ensures var w := FRESH.(rows := map[dest := RowPending]);
            var v := Run(c, w, TimesOut(dest, k1) + Interrupted(dest, k2, ready, k1));
            && Inv(c, w, NONE)
            && v.locks == map[]
            && 2 in v.writers && v.writers[2] == Finished(dest, k2, Ok(RowReady))
            && dest in v.last && v.last[dest] == Session(2, k2, true)
            && dest in v.secrets && v.secrets[dest] == k2
            && dest in v.provider && v.provider[dest] == k1
  {
    hide CredentialValid, VerifiedReady, TimesOut, Run, Step;
    var w := FRESH.(rows := map[dest := RowPending]);
    FirstWriterTimesOut(c, w, dest, k1);
    var u := Run(c, w, TimesOut(dest, k1));
    SecondWriterStarts(c, u, dest, k2);
    var s3 := Step(c, Step(c, Step(c, u, Begin(2, dest, k2)), Acquire(2)), PutSecret(2, Succeeded, false));
    SecondWriterAnswered(c, s3, dest, k2, ready, k1);
    var s5 := Step(c, Step(c, s3, PutProvider(2, Ok(ready), true, false)), ArriveLate(Request(Provider, dest, k1)));
    SecondWriterSettles(c, s5, dest, k2);
    InterruptedRun(c, u, dest, k2, ready, k1);
    RunAppend(c, w, TimesOut(dest, k1), Interrupted(dest, k2, ready, k1));
  }
}

/**
`apply` as sequential code. Before each call other writers may take any steps; every call is
answered by the inputs, and late requests may arrive. The code is one writer of
`CredentialRotation`, so the agreement theorems hold of the run it takes part in.
*/
module CredentialWriters {
  import opened Outcomes
  import opened Json
  import opened CredentialRotation

  /** How each call is answered, and who interferes before it. */
  datatype Inputs = Inputs(
    beforeLock: seq<Action>,
    locked: bool,
    secretOutcome: CallOutcome,
    secretMayArriveLater: bool,
    beforeProvider: seq<Action>,
    reply: Result<Value, int>,
    applied: bool,
    mayArriveLater: bool,
    beforeRow: seq<Action>,
    rowAnswered: bool,
    commitOutcome: CallOutcome)

  /** The writer an action belongs to. */
  function Actor(a: Action): Option<nat> {
    if a.Refresh? || a.ArriveLate? then None else Some(a.pid)
  }

  predicate LeavesAlone(env: seq<Action>, pid: nat) {
    forall i :: 0 <= i < |env| ==> Actor(env[i]) != Some(pid)
  }

  predicate SameWriter(w: World, w': World, pid: nat) {
    WriterOf(w', pid) == WriterOf(w, pid) && (pid in w'.writers <==> pid in w.writers)
  }

  lemma PutSecretKeeps(c: Config, w: World, p: nat, outcome: CallOutcome, later: bool, pid: nat)
    requires p != pid
    ensures SameWriter(w, PutSecretStep(c, w, p, outcome, later), pid)
  {
    if WriterOf(w, p).Locked? {
      hide PutSecretStep;
      PutSecretShape(c, w, p, outcome, later);
    }
  }

  lemma PutProviderKeeps(
    c: Config, w: World, p: nat, reply: Result<Value, int>, applied: bool, later: bool, pid: nat)
    requires p != pid
    ensures SameWriter(w, PutProviderStep(c, w, p, reply, applied, later), pid)
  {
    hide ProviderResult, CredentialValid;
  }

  lemma CommitKeeps(c: Config, w: World, p: nat, outcome: CallOutcome, pid: nat)
    requires p != pid
    ensures SameWriter(w, CommitStep(c, w, p, outcome), pid)
  {
    hide ProviderResult, CredentialValid;
  }

  lemma QuickKeeps(c: Config, w: World, p: nat, answered: bool, pid: nat)
    requires p != pid
    ensures SameWriter(w, AcquireStep(c, w, p), pid) && SameWriter(w, UpdateRowStep(c, w, p, answered), pid)
  {
    hide ProviderResult, CredentialValid;
  }

  lemma LeavingKeeps(c: Config, w: World, p: nat, unfinished: set<Store>, pid: nat)
    requires p != pid
    ensures SameWriter(w, CrashStep(c, w, p, unfinished), pid) && SameWriter(w, GiveUpStep(c, w, p), pid)
  {
    hide ProviderResult, CredentialValid;
  }

  lemma StepKeepsOthers(c: Config, w: World, a: Action, pid: nat)
    requires Actor(a) != Some(pid)
    ensures SameWriter(w, Step(c, w, a), pid)
  {
    hide AcquireStep, GiveUpStep, PutSecretStep, PutProviderStep, UpdateRowStep, CommitStep, CrashStep, CredentialValid;
    match a {
      case Acquire(p) => QuickKeeps(c, w, p, true, pid);
      case GiveUp(p) => LeavingKeeps(c, w, p, {}, pid);
      case PutSecret(p, outcome, later) => PutSecretKeeps(c, w, p, outcome, later, pid);
      case PutProvider(p, reply, applied, later) => PutProviderKeeps(c, w, p, reply, applied, later, pid);
      case UpdateRow(p, answered) => QuickKeeps(c, w, p, answered, pid);
      case Commit(p, outcome) => CommitKeeps(c, w, p, outcome, pid);
      case Crash(p, unfinished) => LeavingKeeps(c, w, p, unfinished, pid);
      case _ =>
    }
  }

  lemma {:induction false} RunKeepsOthers(c: Config, w: World, env: seq<Action>, pid: nat)
    requires LeavesAlone(env, pid)
    ensures SameWriter(w, Run(c, w, env), pid)
    decreases |env|
  {
    hide Step, WriterOf;
    if env != [] {
      RunKeepsOthers(c, w, env[..|env| - 1], pid);
      StepKeepsOthers(c, Run(c, w, env[..|env| - 1]), env[|env| - 1], pid);
    }
  }

  /** The provider answered about this destination of this organization, and whether it is ready. */
  predicate Tells(reply: Result<Value, int>, org: string, dest: string, ready: bool) {
    match reply
    case Ok(Obj(fields)) =>
      && "id" in fields && fields["id"] == Str(dest)
      && "organization_id" in fields && fields["organization_id"] == Str(org)
      && "ready" in fields && fields["ready"] == Bool(ready)
    case _ => false
  }

  lemma ProviderResultExactly(c: Config, dest: string, reply: Result<Value, int>)
    ensures forall ready :: ProviderResult(c, dest, reply) == Ok(ready) <==> Tells(reply, c.org, dest, ready)
    ensures ProviderResult(c, dest, reply).Err? ==>
              ProviderResult(c, dest, reply).error ==
              match reply
              case Err(400) => BadRequest
              case Err(409) => Conflict
              case _ => Unavailable
  {
  }

  /** Not empty, at most 4096 bytes, none of them a control character. */
  predicate PlainKey(value: string) {
    1 <= |value| <= 4096 && forall i :: 0 <= i < |value| ==> 32 <= value[i] as int && !(127 <= value[i] as int <= 159)
  }

  lemma CredentialValidExactly(value: string)
    ensures CredentialValid(value) <==> PlainKey(value)
  {
  }

  // What a credential write answers, from the answers to its own calls and whether its row exists.

  function AfterReply(ready: bool, inputs: Inputs, found: bool): Result<RowState, ApplyError> {
    if !inputs.rowAnswered then Err(Internal)
    else if !found then Err(NotFound)
    else if inputs.commitOutcome != Succeeded then Err(Internal)
    else Ok(if ready then RowReady else RowPending)
  }

  function AfterSecret(org: string, dest: string, inputs: Inputs, found: bool): Result<RowState, ApplyError> {
    if Tells(inputs.reply, org, dest, true) then AfterReply(true, inputs, found)
    else if Tells(inputs.reply, org, dest, false) then AfterReply(false, inputs, found)
    else
      Err(match inputs.reply
          case Err(400) => BadRequest
          case Err(409) => Conflict
          case _ => Unavailable)
  }

  function UnderLock(org: string, dest: string, inputs: Inputs, found: bool): Result<RowState, ApplyError> {
    if inputs.secretOutcome != Succeeded then Err(Unavailable) else AfterSecret(org, dest, inputs, found)
  }

  function Answer(org: string, dest: string, key: Credential, inputs: Inputs, found: bool): Result<RowState, ApplyError> {
    if !PlainKey(key.accessKey) || !PlainKey(key.secretKey) then Err(BadRequest)
    else if !inputs.locked then Err(Internal)
    else UnderLock(org, dest, inputs, found)
  }

  /**
  Both stores hold this writer's key, up to stray requests; the row repeats the readiness the provider
  verifiably reported.
  */
  predicate InForce(
    c: Config, w: World, strays: Strays, pid: nat, dest: string, key: Credential, reply: Result<Value, int>, row: RowState)
  {
    && dest in w.secrets && w.secrets[dest] == Held(strays.secrets, dest, key)
    && dest in w.provider && w.provider[dest] == Held(strays.provider, dest, key)
    && dest in w.rows && w.rows[dest] == row
    && dest in w.last && w.last[dest] == Session(pid, key, true)
    && ((row == RowReady && Tells(reply, c.org, dest, true)) || (row == RowPending && Tells(reply, c.org, dest, false)))
  }

  /** A writer about to commit found its row. */
  ghost predicate RowsKnown(w: World) {
    forall pid :: pid in w.writers && w.writers[pid].RowUpdated? ==> w.writers[pid].dest in w.rows
  }

  lemma PutSecretKeepsRows(c: Config, w: World, pid: nat, outcome: CallOutcome, later: bool)
    ensures PutSecretStep(c, w, pid, outcome, later).rows == w.rows
  {
  }

  lemma PutProviderKeepsRows(c: Config, w: World, pid: nat, reply: Result<Value, int>, applied: bool, later: bool)
    ensures PutProviderStep(c, w, pid, reply, applied, later).rows == w.rows
  {
    hide ProviderResult;
  }

  lemma OthersKeepRows(c: Config, w: World, pid: nat, answered: bool, unfinished: set<Store>)
    ensures AcquireStep(c, w, pid).rows == w.rows && GiveUpStep(c, w, pid).rows == w.rows
    ensures UpdateRowStep(c, w, pid, answered).rows == w.rows && CrashStep(c, w, pid, unfinished).rows == w.rows
  {
  }

  lemma CommitWritesRow(c: Config, w: World, pid: nat, outcome: CallOutcome)
    ensures var rows := CommitStep(c, w, pid, outcome).rows;
            rows == w.rows || (WriterOf(w, pid).RowUpdated? && rows.Keys == w.rows.Keys + {WriterOf(w, pid).dest})
  {
  }

  /** Only a commit and a refresh write rows. */
  lemma RowsWritten(c: Config, w: World, a: Action)
    ensures var w' := Step(c, w, a);
            || w'.rows == w.rows
            || (a.Commit? && WriterOf(w, a.pid).RowUpdated? && w'.rows.Keys == w.rows.Keys + {WriterOf(w, a.pid).dest})
            || (a.Refresh? && w'.rows.Keys == w.rows.Keys)
  {
    hide CredentialValid, AcquireStep, GiveUpStep, UpdateRowStep, CrashStep, PutSecretStep, PutProviderStep, CommitStep;
    match a {
      case PutSecret(pid, outcome, later) => PutSecretKeepsRows(c, w, pid, outcome, later);
      case PutProvider(pid, reply, applied, later) => PutProviderKeepsRows(c, w, pid, reply, applied, later);
      case Commit(pid, outcome) => CommitWritesRow(c, w, pid, outcome);
      case UpdateRow(pid, answered) => OthersKeepRows(c, w, pid, answered, {});
      case Crash(pid, unfinished) => OthersKeepRows(c, w, pid, true, unfinished);
      case Acquire(pid) => OthersKeepRows(c, w, pid, true, {});
      case GiveUp(pid) => OthersKeepRows(c, w, pid, true, {});
      case _ =>
    }
  }

  /** And only a successful update of a row that is there leads to a commit. */
  lemma CommitsFound(c: Config, w: World, a: Action, pid: nat)
    requires WriterOf(Step(c, w, a), pid).RowUpdated? && Actor(a) == Some(pid)
    ensures WriterOf(w, pid) == WriterOf(Step(c, w, a), pid)
         || (a.UpdateRow? && WriterOf(Step(c, w, a), pid).dest in w.rows && Step(c, w, a).rows == w.rows)
  {
    hide ProviderResult, CredentialValid;
  }

  /** No step makes a destination known or unknown. */
  lemma StepKeepsRows(c: Config, w: World, a: Action)
    requires RowsKnown(w)
    ensures RowsKnown(Step(c, w, a)) && Step(c, w, a).rows.Keys == w.rows.Keys
  {
    hide Step;
    var w' := Step(c, w, a);
    RowsWritten(c, w, a);
    forall pid | pid in w'.writers && w'.writers[pid].RowUpdated? ensures w'.writers[pid].dest in w'.rows {
      if Actor(a) == Some(pid) { CommitsFound(c, w, a, pid); } else { StepKeepsOthers(c, w, a, pid); }
    }
  }

  lemma {:induction false} RowsStay(c: Config, w: World, actions: seq<Action>)
    requires RowsKnown(w)
    ensures RowsKnown(Run(c, w, actions)) && Run(c, w, actions).rows.Keys == w.rows.Keys
    decreases |actions|
  {
    hide Step, RowsKnown;
    if actions != [] {
      RowsStay(c, w, actions[..|actions| - 1]);
      StepKeepsRows(c, Run(c, w, actions[..|actions| - 1]), actions[|actions| - 1]);
    }
  }

  lemma StraysSnoc(c: Config, w: World, strays: Strays, actions: seq<Action>, a: Action)
    ensures StraysOf(c, w, strays, actions + [a]) == StraysAfter(c, Run(c, w, actions), StraysOf(c, w, strays, actions), a)
  {
    hide StraysAfter, Run;
    assert (actions + [a])[..|actions|] == actions;
  }

  class Destinations {
    const config: Config
    var world: World
    ghost const start: World
    ghost var trace: seq<Action>

    ghost predicate Valid()
      reads this
    {
      Inv(config, start, NONE) && RowsKnown(start) && world == Run(config, start, trace)
    }

    /** The stray requests that count in the run so far. */
    ghost function Arrived(): Strays
      reads this
    {
      StraysOf(config, start, NONE, trace)
    }

    constructor (c: Config, w: World)
      requires Inv(c, w, NONE) && RowsKnown(w)
      ensures Valid() && config == c && world == w && Arrived() == NONE
    {
      config, world, start, trace := c, w, w, [];
    }

    method Perform(a: Action)
      requires Valid()
      modifies this
      ensures Valid() && Inv(config, old(world), old(Arrived()))
      ensures world == Step(config, old(world), a) && trace == old(trace) + [a]
      ensures world.rows.Keys == old(world.rows.Keys)
      ensures Arrived() == StraysAfter(config, old(world), old(Arrived()), a)
    {
      hide Step, Inv, StraysAfter, StraysOf, Run;
      RunPreserves(config, start, NONE, trace);
      RowsStay(config, start, trace);
      StepKeepsRows(config, world, a);
      RunSnoc(config, start, trace, a);
      StraysSnoc(config, start, NONE, trace, a);
      world := Step(config, world, a);
      trace := trace + [a];
    }

    method Interfere(env: seq<Action>, ghost pid: nat)
      requires Valid() && LeavesAlone(env, pid)
      modifies this
      ensures Valid()
      ensures world == Run(config, old(world), env) && trace == old(trace) + env
      ensures world.rows.Keys == old(world.rows.Keys)
      ensures WriterOf(world, pid) == old(WriterOf(world, pid))
      ensures pid in world.writers <==> pid in old(world.writers)
      ensures CallsFinish(env) ==> Fewer(Arrived(), old(Arrived()))
    {
      hide Step, Inv, StraysAfter, StraysOf;
      ghost var before, first := trace, world;
      for i := 0 to |env|
        invariant Valid()
        invariant world == Run(config, first, env[..i]) && trace == before + env[..i]
        invariant world.rows.Keys == first.rows.Keys
        invariant CallsFinish(env) ==> Fewer(Arrived(), old(Arrived()))
      {
        assert env[..i + 1] == env[..i] + [env[i]];
        RunSnoc(config, first, env[..i], env[i]);
        assert before + env[..i + 1] == before + env[..i] + [env[i]];
        if !env[i].ArriveLate? { OnlyArrivalsAdd(config, world, Arrived(), env[i]); }
        Perform(env[i]);
      }
      assert env[..|env|] == env;
      RunKeepsOthers(config, first, env, pid);
    }

    /**
    One credential write. `None` means the lock is still held by someone else, so the call has not
    returned. `Ok` means this key is in both stores and the row tells the provider's readiness; only a
    stray request that arrived since the provider answered can have replaced the key there.
    */
    method Apply(pid: nat, dest: string, key: Credential, inputs: Inputs)
      returns (result: Option<Result<RowState, ApplyError>>)
      requires Valid() && pid !in world.writers
      requires LeavesAlone(inputs.beforeLock, pid) && LeavesAlone(inputs.beforeProvider, pid)
      requires LeavesAlone(inputs.beforeRow, pid)
      modifies this
      ensures Valid() && old(trace) <= trace
      ensures result.None? ==> WriterOf(world, pid) == Waiting(dest, key) && config.hash(dest) in world.locks
      ensures result.Some? ==> WriterOf(world, pid) == Finished(dest, key, result.value)
      ensures result.Some? ==> result.value == Answer(config.org, dest, key, inputs, dest in old(world.rows))
      ensures result.Some? && result.value.Ok? ==>
                && InForce(config, world, Arrived(), pid, dest, key, inputs.reply, result.value.value)
                && (CallsFinish(inputs.beforeProvider) && CallsFinish(inputs.beforeRow) ==> BothHold(world, dest, key))
    {
      hide Inv, Run, CredentialValid, InForce, AcquireStep, GiveUpStep, PutSecretStep, PutProviderStep, UpdateRowStep,
           CommitStep, CrashStep, RefreshStep, ArriveLateStep, BothHold, StraysAfter, UnderLock, PlainKey;
      CredentialValidExactly(key.accessKey);
      CredentialValidExactly(key.secretKey);
      Perform(Begin(pid, dest, key));
      if !CredentialValid(key.accessKey) || !CredentialValid(key.secretKey) {
        return Some(Err(BadRequest));
      }
      result := Lock(pid, dest, key, inputs);
    }

    /** The part of `apply` after its key is known to be well-formed. */
    method Lock(pid: nat, dest: string, key: Credential, inputs: Inputs)
      returns (result: Option<Result<RowState, ApplyError>>)
      requires Valid() && WriterOf(world, pid) == Waiting(dest, key)
      requires LeavesAlone(inputs.beforeLock, pid) && LeavesAlone(inputs.beforeProvider, pid)
      requires LeavesAlone(inputs.beforeRow, pid)
      modifies this
      ensures Valid() && old(trace) <= trace
      ensures result.None? ==> WriterOf(world, pid) == Waiting(dest, key) && config.hash(dest) in world.locks
      ensures result.Some? ==> WriterOf(world, pid) == Finished(dest, key, result.value)
      ensures result.Some? ==>
                result.value == if inputs.locked then UnderLock(config.org, dest, inputs, dest in old(world.rows)) else Err(Internal)
      ensures result.Some? && result.value.Ok? ==>
                && InForce(config, world, Arrived(), pid, dest, key, inputs.reply, result.value.value)
                && (CallsFinish(inputs.beforeProvider) && CallsFinish(inputs.beforeRow) ==> BothHold(world, dest, key))
    {
      hide Inv, Run, InForce, BeginStep, PutSecretStep, PutProviderStep, UpdateRowStep, CommitStep, CrashStep, RefreshStep,
           ArriveLateStep, BothHold, StraysAfter, UnderLock;
      Interfere(inputs.beforeLock, pid);
      if !inputs.locked {
        Perform(GiveUp(pid));
        return Some(Err(Internal));
      }
      Perform(Acquire(pid));
      if WriterOf(world, pid).Waiting? { return None; }
      result := Store(pid, dest, key, inputs);
    }

    /** The part of `apply` under the lock. */
    method Store(pid: nat, dest: string, key: Credential, inputs: Inputs)
      returns (result: Option<Result<RowState, ApplyError>>)
      requires Valid() && WriterOf(world, pid) == Locked(dest, key)
      requires LeavesAlone(inputs.beforeProvider, pid) && LeavesAlone(inputs.beforeRow, pid)
      modifies this
      ensures Valid() && old(trace) <= trace
      ensures result.Some? && WriterOf(world, pid) == Finished(dest, key, result.value)
      ensures result.value == UnderLock(config.org, dest, inputs, dest in old(world.rows))
      ensures result.value.Ok? ==>
                && InForce(config, world, Arrived(), pid, dest, key, inputs.reply, result.value.value)
                && (CallsFinish(inputs.beforeProvider) && CallsFinish(inputs.beforeRow) ==> BothHold(world, dest, key))
    {
      hide Inv, Run, InForce, BeginStep, AcquireStep, GiveUpStep, PutProviderStep, UpdateRowStep, CommitStep, CrashStep,
           RefreshStep, ArriveLateStep, BothHold, StraysAfter, AfterSecret;
      SecretRecord(config, world, Arrived(), pid, inputs.secretOutcome, inputs.secretMayArriveLater);
      Perform(PutSecret(pid, inputs.secretOutcome, inputs.secretMayArriveLater));
      if inputs.secretOutcome.Failed? { return Some(Err(Unavailable)); }
      result := Publish(pid, dest, key, inputs);
    }

    /** The part of `apply` after the secret is stored. */
    method Publish(pid: nat, dest: string, key: Credential, inputs: Inputs)
      returns (result: Option<Result<RowState, ApplyError>>)
      requires Valid() && WriterOf(world, pid) == SecretStored(dest, key)
      requires LeavesAlone(inputs.beforeProvider, pid) && LeavesAlone(inputs.beforeRow, pid)
      modifies this
      ensures Valid() && old(trace) <= trace
      ensures result.Some? && WriterOf(world, pid) == Finished(dest, key, result.value)
      ensures result.value == AfterSecret(config.org, dest, inputs, dest in old(world.rows))
      ensures result.value.Ok? ==>
                && InForce(config, world, Arrived(), pid, dest, key, inputs.reply, result.value.value)
                && (CallsFinish(inputs.beforeProvider) && CallsFinish(inputs.beforeRow) && dest !in old(Arrived().secrets) ==>
                      BothHold(world, dest, key))
    {
      hide Inv, Run, ProviderResult, BeginStep, AcquireStep, GiveUpStep, PutSecretStep, CrashStep, RefreshStep, ArriveLateStep,
           CommitStep, StraysOf, InForce, BothHold, AfterReply, Tells;
      ProviderResultExactly(config, dest, inputs.reply);
      Interfere(inputs.beforeProvider, pid);
      Perform(PutProvider(pid, inputs.reply, inputs.applied, inputs.mayArriveLater));
      var ready := ProviderResult(config, dest, inputs.reply);
      if ready.Err? { return Some(Err(ready.error)); }
      assert dest !in Arrived().provider;
      Interfere(inputs.beforeRow, pid);
      result := Settle(pid, dest, key, ready.value, inputs);
    }

    /** The part of `apply` after the provider has answered. */
    method Settle(pid: nat, dest: string, key: Credential, ready: bool, inputs: Inputs)
      returns (result: Option<Result<RowState, ApplyError>>)
      requires Valid() && WriterOf(world, pid) == ProviderStored(dest, key, ready)
      requires Tells(inputs.reply, config.org, dest, ready)
      modifies this
      ensures Valid() && old(trace) <= trace
      ensures result.Some? && WriterOf(world, pid) == Finished(dest, key, result.value)
      ensures result.value == AfterReply(ready, inputs, dest in old(world.rows))
      ensures result.value.Ok? ==>
                && InForce(config, world, Arrived(), pid, dest, key, inputs.reply, result.value.value)
                && (dest !in old(Arrived().secrets) && dest !in old(Arrived().provider) ==> BothHold(world, dest, key))
    {
      hide Inv, Run, Tells, BeginStep, AcquireStep, GiveUpStep, PutSecretStep, PutProviderStep, CrashStep,
           RefreshStep, ArriveLateStep, StraysOf;
      var found := dest in world.rows;
      Perform(UpdateRow(pid, inputs.rowAnswered));
      if !inputs.rowAnswered { return Some(Err(Internal)); }
      if !found { return Some(Err(NotFound)); }
      ghost var updated, strays := world, Arrived();
      Perform(Commit(pid, inputs.commitOutcome));
      if inputs.commitOutcome.Failed? { return Some(Err(Internal)); }
      KnownProgress(config, updated, strays, pid);
      CommitRepairs(config, updated, strays, pid, inputs.commitOutcome);
      result := Some(Ok(RowOf(ready)));
    }
  }

  lemma KnownProgress(c: Config, w: World, strays: Strays, pid: nat)
    requires Inv(c, w, strays) && pid in w.writers
    ensures LocksMatch(c, w) && ProgressOk(w, strays, pid, w.writers[pid])
  {
  }
}
