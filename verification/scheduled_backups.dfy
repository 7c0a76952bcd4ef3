/**
Scheduled backups. Each schedule slot of a service is requested under an identifier derived from the
service and the slot's time, so that replicas and retries of one slot meet in one row. Any number of
attempts interleave with each other, with requests and deletions made by users and with edits of the
service; every call may fail, with or without having taken effect, and an attempt may stop anywhere.

A backup's id is its position in `World.backups`; rows are never removed.
*/
module ScheduledBackups {
  import opened Outcomes
  import opened Json

  datatype Backup = Backup(
    org: string,
    service: string,
    principal: string,
    request: int,
    name: string,
    destination: Option<string>,
    bytes: int,
    deleteRequested: bool,
    deleted: bool,
    schedule: Option<string>)

  datatype Service = Service(org: string, flash: bool, deleting: bool, generation: int)

  datatype Policy = Policy(service: string, org: string, principal: string, nextRunAt: int, destination: Option<string>)

  datatype Attempt =
    | Reading(policy: Policy)
    | Observing(policy: Policy, generation: int)
    | Requesting(policy: Policy, generation: int, bytes: int, pvc: string)
    | Attaching(policy: Policy, id: nat)
    | Succeeded(policy: Policy, id: nat)
    | Refused(code: string)

  datatype World = World(
    backups: seq<Backup>,
    services: map<string, Service>,
    ready: set<(string, string)>,
    attempts: map<nat, Attempt>)

  /** The slot's identifier and name; the hash is assumed to be injective where a result needs it. */
  datatype Config = Config(hash: (string, int) -> int, name: int -> string)

  ghost predicate Injective(c: Config) {
    forall s, t, s', t' :: c.hash(s, t) == c.hash(s', t') ==> s == s' && t == t'
  }

  datatype Call = Answered | Failed(applied: bool)

  datatype StoreError = Rejected | Conflict | NotFound

  datatype Order = Order(
    org: string,
    service: string,
    principal: string,
    request: int,
    name: string,
    bytes: int,
    pvc: string,
    generation: int,
    destination: Option<string>)

  datatype Action =
    | Begin(pid: nat, policy: Policy, permitted: bool)
    | ReadSource(pid: nat, read: bool)
    | Observe(pid: nat, provider: bool, observed: Option<Value>)
    | RequestRow(pid: nat, requesting: Call)
    | Attach(pid: nat, attaching: Call)
    | Manual(order: Order)
    | RequestDelete(id: nat)
    | Release(id: nat)
    | Edit(serviceId: string, service: Service)
    | SetReady(org: string, destination: string, isReady: bool)

  const MAX_BACKUPS := 100
  const MAX_PER_SERVICE := 10
  const MAX_BYTES := 128 * 1024 * 1024 * 1024
  const EMPTY := World([], map[], {}, map[])

  // ---------------------------------------------------------------- the store's transaction

  predicate Holds(b: Backup, org: string) {
    b.org == org && !b.deleted
  }

  function CountHeld(backups: seq<Backup>, org: string): nat {
    if backups == [] then 0
    else CountHeld(backups[..|backups| - 1], org) + (if Holds(backups[|backups| - 1], org) then 1 else 0)
  }

  function CountService(backups: seq<Backup>, org: string, service: string): nat {
    if backups == [] then 0
    else
      CountService(backups[..|backups| - 1], org, service)
      + (if Holds(backups[|backups| - 1], org) && backups[|backups| - 1].service == service then 1 else 0)
  }

  function BytesHeld(backups: seq<Backup>, org: string): int {
    if backups == [] then 0
    else
      BytesHeld(backups[..|backups| - 1], org)
      + (if Holds(backups[|backups| - 1], org) then backups[|backups| - 1].bytes else 0)
  }

  function Lookup(backups: seq<Backup>, org: string, request: int): Option<nat>
    ensures Lookup(backups, org, request).Some? ==>
              var k := Lookup(backups, org, request).value;
              k < |backups| && backups[k].org == org && backups[k].request == request
    ensures Lookup(backups, org, request).None? ==>
              forall k :: 0 <= k < |backups| ==> !(backups[k].org == org && backups[k].request == request)
  {
    if backups == [] then None
    else
      var n := |backups| - 1;
      if backups[n].org == org && backups[n].request == request then Some(n) else Lookup(backups[..n], org, request)
  }

  predicate SameOrder(b: Backup, o: Order) {
    && b.service == o.service && b.name == o.name && b.destination == o.destination && b.principal == o.principal
    && !b.deleteRequested
  }

  predicate Exceeds(backups: seq<Backup>, o: Order) {
    || CountHeld(backups, o.org) >= MAX_BACKUPS
    || CountService(backups, o.org, o.service) >= MAX_PER_SERVICE
    || BytesHeld(backups, o.org) + o.bytes > I64_MAX
    || BytesHeld(backups, o.org) + o.bytes > MAX_BYTES
  }

  function NewBackup(o: Order): Backup {
    Backup(o.org, o.service, o.principal, o.request, o.name, o.destination, o.bytes, false, false, None)
  }

  /** A repeated order finds its row again; a different one under the same identifier is a conflict. */
  function Place(w: World, o: Order): Result<nat, StoreError> {
    if o.bytes <= 0 || o.pvc == "" then Err(Rejected)
    else
      match Lookup(w.backups, o.org, o.request)
      case Some(k) => if SameOrder(w.backups[k], o) then Ok(k) else Err(Conflict)
      case None =>
        if o.destination.Some? && (o.org, o.destination.value) !in w.ready then Err(Rejected)
        else if o.service !in w.services || w.services[o.service].org != o.org || !w.services[o.service].flash
                || w.services[o.service].deleting then Err(NotFound)
        else if w.services[o.service].generation != o.generation then Err(Conflict)
        else if Exceeds(w.backups, o) then Err(Rejected)
        else Ok(|w.backups|)
  }

  function Placed(w: World, o: Order): World {
    if Place(w, o) == Ok(|w.backups|) then w.(backups := w.backups + [NewBackup(o)]) else w
  }

  // ---------------------------------------------------------------- one attempt

  function OrderOf(c: Config, p: Policy, generation: int, bytes: int, pvc: string): Order {
    Order(p.org, p.service, p.principal, c.hash(p.service, p.nextRunAt), c.name(p.nextRunAt), bytes, pvc, generation,
          p.destination)
  }

  function Become(w: World, pid: nat, a: Attempt): World {
    w.(attempts := w.attempts[pid := a])
  }

  function BeginStep(w: World, pid: nat, policy: Policy, permitted: bool): World {
    if pid in w.attempts then w
    else Become(w, pid, if permitted then Reading(policy) else Refused("backup_permission_revoked"))
  }

  function ReadSourceStep(w: World, pid: nat, read: bool): World {
    if pid !in w.attempts || !w.attempts[pid].Reading? then w
    else
      var p := w.attempts[pid].policy;
      if read && p.service in w.services && w.services[p.service].org == p.org && w.services[p.service].flash
         && !w.services[p.service].deleting
      then Become(w, pid, Observing(p, w.services[p.service].generation))
      else Become(w, pid, Refused("backup_source_unavailable"))
  }

  function ObserveStep(w: World, pid: nat, provider: bool, observed: Option<Value>): World {
    if pid !in w.attempts || !w.attempts[pid].Observing? then w
    else if !provider then Become(w, pid, Refused("backup_provider_unavailable"))
    else
      var a := w.attempts[pid];
      if observed.Some? && At(observed.value, "volume_size_bytes").Num?
         && I64_MIN <= At(observed.value, "volume_size_bytes").n <= I64_MAX
         && At(observed.value, "source_pvc_uid").Str?
      then Become(w, pid, Requesting(a.policy, a.generation, At(observed.value, "volume_size_bytes").n,
                                     At(observed.value, "source_pvc_uid").s))
      else Become(w, pid, Refused("backup_source_unavailable"))
  }

  function RequestRowStep(c: Config, w: World, pid: nat, call: Call): World {
    if pid !in w.attempts || !w.attempts[pid].Requesting? then w
    else
      var a := w.attempts[pid];
      var o := OrderOf(c, a.policy, a.generation, a.bytes, a.pvc);
      var result := Place(w, o);
      if call.Answered? && result.Ok? then Become(Placed(w, o), pid, Attaching(a.policy, result.value))
      else Become(if call.Answered? || call.applied then Placed(w, o) else w, pid, Refused("backup_quota_or_source_unavailable"))
  }

  function AttachStep(w: World, pid: nat, call: Call): World {
    if pid !in w.attempts || !w.attempts[pid].Attaching? then w
    else
      var p, id := w.attempts[pid].policy, w.attempts[pid].id;
      var attached :=
        if (call.Answered? || call.applied) && id < |w.backups| && w.backups[id].org == p.org
        then w.(backups := w.backups[id := w.backups[id].(schedule := Some(p.service))])
        else w;
      Become(attached, pid, if call.Answered? then Succeeded(p, id) else Refused("backup_storage_unavailable"))
  }

  function MarkStep(w: World, id: nat, release: bool): World {
    if id >= |w.backups| || w.backups[id].deleted then w
    else if !release then w.(backups := w.backups[id := w.backups[id].(deleteRequested := true)])
    else if w.backups[id].deleteRequested then w.(backups := w.backups[id := w.backups[id].(deleted := true)])
    else w
  }

  function Step(c: Config, w: World, a: Action): World {
    match a
    case Begin(pid, policy, permitted) => BeginStep(w, pid, policy, permitted)
    case ReadSource(pid, read) => ReadSourceStep(w, pid, read)
    case Observe(pid, provider, observed) => ObserveStep(w, pid, provider, observed)
    case RequestRow(pid, call) => RequestRowStep(c, w, pid, call)
    case Attach(pid, call) => AttachStep(w, pid, call)
    case Manual(order) => Placed(w, order)
    case RequestDelete(id) => MarkStep(w, id, false)
    case Release(id) => MarkStep(w, id, true)
    case Edit(serviceId, service) => w.(services := w.services[serviceId := service])
    case SetReady(org, destination, isReady) =>
      w.(ready := if isReady then w.ready + {(org, destination)} else w.ready - {(org, destination)})
  }

  /** What others do: a deletion is requested of an undeleted row and released once requested; an attempt begins once. */
  lemma OthersTakeEffect(c: Config, w: World, id: nat, pid: nat, policy: Policy, permitted: bool)
    ensures var w' := Step(c, w, RequestDelete(id));
            if id < |w.backups| && !w.backups[id].deleted
            then w' == w.(backups := w.backups[id := w.backups[id].(deleteRequested := true)])
            else w' == w
    ensures var w' := Step(c, w, Release(id));
            if id < |w.backups| && !w.backups[id].deleted && w.backups[id].deleteRequested
            then w' == w.(backups := w.backups[id := w.backups[id].(deleted := true)])
            else w' == w
    ensures pid in w.attempts ==> Step(c, w, Begin(pid, policy, permitted)) == w
  {
  }

  function Run(c: Config, w: World, actions: seq<Action>): World
    decreases |actions|
  {
    if actions == [] then w else Step(c, Run(c, w, actions[..|actions| - 1]), actions[|actions| - 1])
  }

  // ---------------------------------------------------------------- invariant

  ghost predicate Unique(backups: seq<Backup>) {
    forall i, j :: 0 <= i < j < |backups| ==> backups[i].org != backups[j].org || backups[i].request != backups[j].request
  }

  ghost predicate WithinQuota(backups: seq<Backup>) {
    && (forall i :: 0 <= i < |backups| ==> backups[i].bytes > 0)
    && (forall org :: CountHeld(backups, org) <= MAX_BACKUPS)
    && (forall org, service :: CountService(backups, org, service) <= MAX_PER_SERVICE)
    && (forall org :: BytesHeld(backups, org) <= MAX_BYTES)
  }

  /** The row an attempt holds is the row of its slot. */
  predicate OfSlot(c: Config, b: Backup, p: Policy) {
    b.org == p.org && b.service == p.service && b.request == c.hash(p.service, p.nextRunAt)
  }

  predicate AttemptOk(c: Config, backups: seq<Backup>, a: Attempt) {
    a.Attaching? || a.Succeeded? ==> a.id < |backups| && OfSlot(c, backups[a.id], a.policy)
  }

  ghost predicate Inv(c: Config, w: World) {
    && Unique(w.backups) && WithinQuota(w.backups)
    && (forall pid :: pid in w.attempts ==> AttemptOk(c, w.backups, w.attempts[pid]))
  }

  /** The identity of a row never changes, and a row never disappears. */
  ghost predicate Grows(backups: seq<Backup>, later: seq<Backup>) {
    && |backups| <= |later|
    && (forall i :: 0 <= i < |backups| ==>
          && later[i].org == backups[i].org && later[i].service == backups[i].service
          && later[i].request == backups[i].request)
  }

  /** A row may be marked; marking frees room or leaves it as it was. */
  predicate Marked(b: Backup, later: Backup) {
    && later.org == b.org && later.service == b.service && later.request == b.request && later.bytes == b.bytes
    && (b.deleted ==> later.deleted)
  }

  lemma {:induction false} MarkedFreesRoom(backups: seq<Backup>, k: nat, b: Backup, org: string, service: string)
    requires k < |backups| && Marked(backups[k], b) && b.bytes > 0
    ensures CountHeld(backups[k := b], org) <= CountHeld(backups, org)
    ensures CountService(backups[k := b], org, service) <= CountService(backups, org, service)
    ensures BytesHeld(backups[k := b], org) <= BytesHeld(backups, org)
    decreases |backups|
  {
    var n := |backups| - 1;
    if k == n {
      assert backups[k := b][..n] == backups[..n];
    } else {
      MarkedFreesRoom(backups[..n], k, b, org, service);
      assert backups[k := b][..n] == backups[..n][k := b];
    }
  }

  lemma MarkPreserves(c: Config, w: World, w': World, k: nat, b: Backup)
    requires Inv(c, w) && k < |w.backups| && Marked(w.backups[k], b)
    requires w'.backups == w.backups[k := b]
    ensures Unique(w'.backups) && WithinQuota(w'.backups) && Grows(w.backups, w'.backups)
  {
    hide CountHeld, CountService, BytesHeld, AttemptOk;
    assert w.backups[k].bytes > 0;
    forall org ensures CountHeld(w'.backups, org) <= MAX_BACKUPS && BytesHeld(w'.backups, org) <= MAX_BYTES {
      MarkedFreesRoom(w.backups, k, b, org, "");
    }
    forall org, service ensures CountService(w'.backups, org, service) <= MAX_PER_SERVICE {
      MarkedFreesRoom(w.backups, k, b, org, service);
    }
  }

  lemma AppendCounts(backups: seq<Backup>, b: Backup, org: string, service: string)
    ensures CountHeld(backups + [b], org) == CountHeld(backups, org) + (if b.org == org && !b.deleted then 1 else 0)
    ensures CountService(backups + [b], org, service)
         == CountService(backups, org, service) + (if b.org == org && !b.deleted && b.service == service then 1 else 0)
    ensures BytesHeld(backups + [b], org) == BytesHeld(backups, org) + (if b.org == org && !b.deleted then b.bytes else 0)
    ensures BytesHeld([], org) == 0
  {
    assert (backups + [b])[..|backups|] == backups;
  }

  /** Inserting happens only for a new identifier and only within the quota. */
  lemma PlacedPreserves(w: World, o: Order)
    requires Unique(w.backups) && WithinQuota(w.backups)
    ensures Unique(Placed(w, o).backups) && WithinQuota(Placed(w, o).backups) && Grows(w.backups, Placed(w, o).backups)
  {
    hide CountHeld, CountService, BytesHeld;
    if Place(w, o) == Ok(|w.backups|) {
      var b, after := NewBackup(o), Placed(w, o).backups;
      assert Lookup(w.backups, o.org, o.request).None?;
      assert forall i :: 0 <= i < |w.backups| ==> after[i] == w.backups[i];
      forall org ensures CountHeld(after, org) <= MAX_BACKUPS && BytesHeld(after, org) <= MAX_BYTES {
        AppendCounts(w.backups, b, org, "");
      }
      forall org, service ensures CountService(after, org, service) <= MAX_PER_SERVICE {
        AppendCounts(w.backups, b, org, service);
      }
    }
  }

  /** The rows an organization holds: those not deleted, also while their deletion is only requested. */
  function HeldBy(backups: seq<Backup>, org: string): set<nat> {
    set i | 0 <= i < |backups| && backups[i].org == org && !backups[i].deleted
  }

  function HeldOf(backups: seq<Backup>, org: string, service: string): set<nat> {
    set i | 0 <= i < |backups| && backups[i].org == org && !backups[i].deleted && backups[i].service == service
  }

  lemma OneMore(rows: set<nat>, rest: set<nat>, n: nat, more: bool)
    requires n !in rest && rows == if more then rest + {n} else rest
    ensures |rows| == |rest| + if more then 1 else 0
  {
  }

  /** The store's counts are the numbers of these rows. */
  lemma {:induction false} CountsExactly(backups: seq<Backup>, org: string, service: string)
    ensures CountHeld(backups, org) == |HeldBy(backups, org)|
    ensures CountService(backups, org, service) == |HeldOf(backups, org, service)|
    decreases |backups|
  {
    if backups != [] {
      var n := |backups| - 1;
      var rest, b := backups[..n], backups[n];
      CountsExactly(rest, org, service);
      RowsSnoc(backups, org, service);
      hide HeldBy, HeldOf;
      OneMore(HeldBy(backups, org), HeldBy(rest, org), n, Holds(b, org));
      OneMore(HeldOf(backups, org, service), HeldOf(rest, org, service), n, Holds(b, org) && b.service == service);
    }
  }

  lemma RowsSnoc(backups: seq<Backup>, org: string, service: string)
    requires backups != []
    ensures var n := |backups| - 1;
            var rest, b := backups[..n], backups[n];
            && n !in HeldBy(rest, org) && n !in HeldOf(rest, org, service)
            && HeldBy(backups, org) == (if Holds(b, org) then HeldBy(rest, org) + {n} else HeldBy(rest, org))
            && HeldOf(backups, org, service) ==
               if Holds(b, org) && b.service == service then HeldOf(rest, org, service) + {n} else HeldOf(rest, org, service)
  {
    var n := |backups| - 1;
    var rest := backups[..n];
    assert forall i :: 0 <= i < n ==> rest[i] == backups[i];
  }

  /** A new backup can be ordered: sensible, at a ready destination, of an unchanged service, within the limits. */
  predicate Bookable(w: World, o: Order) {
    && o.bytes >= 1 && |o.pvc| >= 1
    && (o.destination == None || (o.org, o.destination.value) in w.ready)
    && o.service in w.services && w.services[o.service] == Service(o.org, true, false, o.generation)
    && |HeldBy(w.backups, o.org)| <= 99 && |HeldOf(w.backups, o.org, o.service)| <= 9
    && BytesHeld(w.backups, o.org) + o.bytes <= 137438953472
  }

  /** The row of an order, if it has one already. */
  predicate IsRowOf(b: Backup, o: Order) {
    b.org == o.org && b.request == o.request
  }

  /** What an order gets. The first one under an identifier gets a new row if it is bookable; a repeated one, that row. */
  lemma PlaceExactly(w: World, o: Order)
    requires Unique(w.backups)
    ensures (forall k :: 0 <= k < |w.backups| ==> !IsRowOf(w.backups[k], o)) ==>
              if Bookable(w, o)
              then && Place(w, o) == Ok(|w.backups|)
                   && Placed(w, o) == w.(backups := w.backups + [
                        Backup(o.org, o.service, o.principal, o.request, o.name, o.destination, o.bytes, false, false, None)])
              else Place(w, o).Err? && Placed(w, o) == w
    ensures forall k :: 0 <= k < |w.backups| && IsRowOf(w.backups[k], o) ==>
              && Placed(w, o) == w
              && if && o.bytes >= 1 && |o.pvc| >= 1 && !w.backups[k].deleteRequested
                    && w.backups[k].service == o.service && w.backups[k].name == o.name
                    && w.backups[k].destination == o.destination && w.backups[k].principal == o.principal
                 then Place(w, o) == Ok(k) else Place(w, o).Err?
  {
    hide CountHeld, CountService, BytesHeld, HeldBy, HeldOf;
    CountsExactly(w.backups, o.org, o.service);
  }

  /** A successful order is answered with the row of its identifier. */
  lemma PlaceAnswers(w: World, o: Order)
    requires Place(w, o).Ok?
    ensures var id := Place(w, o).value;
            id < |Placed(w, o).backups| && Placed(w, o).backups[id].org == o.org
            && Placed(w, o).backups[id].request == o.request && Placed(w, o).backups[id].service == o.service
  {
    hide CountHeld, CountService, BytesHeld;
  }

  /** A request whose answer is lost may still have placed its order; the attempt ends either way. */
  lemma LostRequests(c: Config, w: World, pid: nat, applied: bool)
    requires pid in w.attempts && w.attempts[pid].Requesting?
    ensures var a, w' := w.attempts[pid], Step(c, w, RequestRow(pid, Failed(applied)));
            && w'.attempts == w.attempts[pid := Refused("backup_quota_or_source_unavailable")]
            && w'.backups == (if applied then Placed(w, OrderOf(c, a.policy, a.generation, a.bytes, a.pvc)) else w).backups
  {
    hide Place;
  }

  lemma AttemptsKept(c: Config, w: World, w': World, pid: nat)
    requires Inv(c, w) && Grows(w.backups, w'.backups) && Unique(w'.backups) && WithinQuota(w'.backups)
    requires w'.attempts == w.attempts
          || (pid in w'.attempts && w'.attempts == w.attempts[pid := w'.attempts[pid]]
              && AttemptOk(c, w'.backups, w'.attempts[pid]))
    ensures Inv(c, w')
  {
    hide Unique, WithinQuota;
    forall q | q in w'.attempts ensures AttemptOk(c, w'.backups, w'.attempts[q]) {
      assert q != pid ==> AttemptOk(c, w.backups, w.attempts[q]);
      assert w'.attempts == w.attempts ==> AttemptOk(c, w.backups, w.attempts[q]);
    }
  }

  lemma RequestRowPreserves(c: Config, w: World, pid: nat, call: Call)
    requires Inv(c, w)
    ensures Inv(c, RequestRowStep(c, w, pid, call))
  {
    hide Unique, WithinQuota, Place, Placed, Grows;
    if pid in w.attempts && w.attempts[pid].Requesting? {
      var a := w.attempts[pid];
      var o := OrderOf(c, a.policy, a.generation, a.bytes, a.pvc);
      PlacedPreserves(w, o);
      GrowsReflexive(w.backups);
      PlacedIsAboutBackups(w, o);
      if Place(w, o).Ok? { PlaceAnswers(w, o); }
    } else {
      GrowsReflexive(w.backups);
    }
    AttemptsKept(c, w, RequestRowStep(c, w, pid, call), pid);
  }

  lemma GrowsReflexive(backups: seq<Backup>)
    ensures Grows(backups, backups)
  {
  }

  lemma PlacedIsAboutBackups(w: World, o: Order)
    ensures Placed(w, o).attempts == w.attempts
  {
    hide Place;
  }

  lemma AttachPreserves(c: Config, w: World, pid: nat, call: Call)
    requires Inv(c, w)
    ensures Inv(c, AttachStep(w, pid, call))
  {
    hide Unique, WithinQuota, Grows;
    var w' := AttachStep(w, pid, call);
    GrowsReflexive(w.backups);
    if pid in w.attempts && w.attempts[pid].Attaching? {
      var p, id := w.attempts[pid].policy, w.attempts[pid].id;
      assert AttemptOk(c, w.backups, w.attempts[pid]);
      if call.Answered? || call.applied {
        MarkPreserves(c, w, w', id, w.backups[id].(schedule := Some(p.service)));
      }
    }
    AttemptsKept(c, w, w', pid);
  }

  lemma MarkStepPreserves(c: Config, w: World, id: nat, release: bool)
    requires Inv(c, w)
    ensures Inv(c, MarkStep(w, id, release))
  {
    hide Unique, WithinQuota, Grows;
    GrowsReflexive(w.backups);
    var w' := MarkStep(w, id, release);
    if id < |w.backups| && w'.backups != w.backups {
      MarkPreserves(c, w, w', id, w'.backups[id]);
    }
    AttemptsKept(c, w, w', 0);
  }

  lemma StepPreserves(c: Config, w: World, a: Action)
    requires Inv(c, w)
    ensures Inv(c, Step(c, w, a))
  {
    hide Unique, WithinQuota, Grows, RequestRowStep, AttachStep, MarkStep, Place, Placed;
    GrowsReflexive(w.backups);
    match a {
      case RequestRow(pid, call) => RequestRowPreserves(c, w, pid, call);
      case Attach(pid, call) => AttachPreserves(c, w, pid, call);
      case Manual(o) =>
        PlacedPreserves(w, o);
        PlacedIsAboutBackups(w, o);
        AttemptsKept(c, w, Step(c, w, a), 0);
      case RequestDelete(id) => MarkStepPreserves(c, w, id, false);
      case Release(id) => MarkStepPreserves(c, w, id, true);
      case Edit(_, _) => AttemptsKept(c, w, Step(c, w, a), 0);
      case SetReady(_, _, _) => AttemptsKept(c, w, Step(c, w, a), 0);
      case _ => AttemptsKept(c, w, Step(c, w, a), a.pid);
    }
  }

  lemma {:induction false} RunPreserves(c: Config, actions: seq<Action>)
    ensures Inv(c, Run(c, EMPTY, actions))
    decreases |actions|
  {
    if actions != [] {
      hide Step, Inv;
      RunPreserves(c, actions[..|actions| - 1]);
      StepPreserves(c, Run(c, EMPTY, actions[..|actions| - 1]), actions[|actions| - 1]);
    }
  }

  // ---------------------------------------------------------------- every run

  /** However many attempts there are for a slot, and wherever they stop, at most one row exists for it. */
  lemma OneBackupPerSlot(c: Config, actions: seq<Action>, org: string, service: string, time: int, i: nat, j: nat)
    requires var b := Run(c, EMPTY, actions).backups;
             && i < |b| && j < |b| && b[i].org == org && b[j].org == org
             && b[i].request == c.hash(service, time) && b[j].request == c.hash(service, time)
    ensures i == j
  {
    hide Run, WithinQuota;
    RunPreserves(c, actions);
  }

  /** All successful attempts of a slot return the same id; attempts of different slots return different ids. */
  lemma SlotsAndIdsCorrespond(c: Config, actions: seq<Action>, p: nat, q: nat)
    requires Injective(c)
    requires var w := Run(c, EMPTY, actions);
             p in w.attempts && q in w.attempts && w.attempts[p].Succeeded? && w.attempts[q].Succeeded?
    ensures var w := Run(c, EMPTY, actions);
            var a, b := w.attempts[p].policy, w.attempts[q].policy;
            w.attempts[p].id == w.attempts[q].id <==> (a.org, a.service, a.nextRunAt) == (b.org, b.service, b.nextRunAt)
  {
    hide Run, WithinQuota;
    RunPreserves(c, actions);
    var w := Run(c, EMPTY, actions);
    assert AttemptOk(c, w.backups, w.attempts[p]) && AttemptOk(c, w.backups, w.attempts[q]);
  }

  /** A successful attempt's row is there, under the identifier of its slot, and stays there. */
  lemma SuccessHasItsRow(c: Config, actions: seq<Action>, p: nat)
    requires var w := Run(c, EMPTY, actions); p in w.attempts && w.attempts[p].Succeeded?
    ensures var w := Run(c, EMPTY, actions);
            w.attempts[p].id < |w.backups| && OfSlot(c, w.backups[w.attempts[p].id], w.attempts[p].policy)
  {
    hide Run, WithinQuota, Unique;
    RunPreserves(c, actions);
    assert AttemptOk(c, Run(c, EMPTY, actions).backups, Run(c, EMPTY, actions).attempts[p]);
  }

  /** In every run, the backups an organization holds stay within all three limits. */
  lemma QuotaIsKept(c: Config, actions: seq<Action>, org: string, service: string)
    ensures var b := Run(c, EMPTY, actions).backups;
            && |HeldBy(b, org)| <= 100 && |HeldOf(b, org, service)| <= 10
            && BytesHeld(b, org) <= 137438953472
  {
    hide Run, Unique, CountHeld, CountService, BytesHeld;
    RunPreserves(c, actions);
    CountsExactly(Run(c, EMPTY, actions).backups, org, service);
  }
}

/** The scheduler's loop over claimed policies, stepping through the stores while others act in between. */
module BackupScheduler {
  import opened Outcomes
  import opened Json
  import opened ScheduledBackups

  datatype Answers = Answers(
    permitted: bool,
    read: bool,
    provider: bool,
    observed: Option<Value>,
    requesting: Call,
    attaching: Call,
    beforeRequest: seq<Action>,
    beforeAttach: seq<Action>)

  predicate By(pid: nat, a: Action) {
    (a.Begin? || a.ReadSource? || a.Observe? || a.RequestRow? || a.Attach?) && a.pid == pid
  }

  predicate Spares(env: seq<Action>, pid: nat) {
    forall i :: 0 <= i < |env| ==> !By(pid, env[i])
  }

  predicate SameAttempt(w: World, w': World, pid: nat) {
    (pid in w.attempts <==> pid in w'.attempts) && (pid in w.attempts ==> w.attempts[pid] == w'.attempts[pid])
  }

  lemma StepSparesAttempt(c: Config, w: World, a: Action, pid: nat)
    requires !By(pid, a)
    ensures SameAttempt(w, Step(c, w, a), pid)
  {
    hide Place;
  }

  lemma {:induction false} RunSparesAttempt(c: Config, w: World, env: seq<Action>, pid: nat)
    requires Spares(env, pid)
    ensures SameAttempt(w, Run(c, w, env), pid)
    decreases |env|
  {
    hide Step, By;
    if env != [] {
      RunSparesAttempt(c, w, env[..|env| - 1], pid);
      StepSparesAttempt(c, Run(c, w, env[..|env| - 1]), env[|env| - 1], pid);
    }
  }

  lemma RunSnoc(c: Config, w: World, actions: seq<Action>, a: Action)
    ensures Run(c, w, actions + [a]) == Step(c, Run(c, w, actions), a)
  {
    hide Step;
    assert (actions + [a])[..|actions|] == actions;
  }

  /** What one attempt that nobody disturbs answers. */
  function Outcome(c: Config, w: World, p: Policy, answers: Answers): Result<nat, string> {
    if !answers.permitted then Err("backup_permission_revoked")
    else if !answers.read || p.service !in w.services then Err("backup_source_unavailable")
    else
      var s := w.services[p.service];
      if s != Service(p.org, true, false, s.generation) then Err("backup_source_unavailable")
      else if !answers.provider then Err("backup_provider_unavailable")
      else
        match Measured(answers.observed)
        case None => Err("backup_source_unavailable")
        case Some((bytes, pvc)) =>
          var order := Order(p.org, p.service, p.principal, c.hash(p.service, p.nextRunAt), c.name(p.nextRunAt), bytes, pvc,
                             s.generation, p.destination);
          if answers.requesting != Answered || Place(w, order).Err? then Err("backup_quota_or_source_unavailable")
          else if answers.attaching != Answered then Err("backup_storage_unavailable")
          else Ok(Place(w, order).value)
  }

  /** Size and volume, as the provider reports them. */
  function Measured(observed: Option<Value>): Option<(int, string)> {
    match observed
    case Some(Obj(fields)) =>
      if "volume_size_bytes" in fields && "source_pvc_uid" in fields then
        (match (fields["volume_size_bytes"], fields["source_pvc_uid"])
         case (Num(n), Str(pvc)) =>
           if -0x8000_0000_0000_0000 <= n < 0x8000_0000_0000_0000 then Some((n, pvc)) else None
         case _ => None)
      else None
    case _ => None
  }

  class Scheduler {
    const config: Config
    var world: World
    ghost var trace: seq<Action>

    ghost predicate Valid()
      reads this
    {
      world == Run(config, EMPTY, trace)
    }

    constructor (c: Config)
      ensures Valid() && config == c && world == EMPTY
    {
      config, world, trace := c, EMPTY, [];
    }

    method Perform(a: Action)
      requires Valid()
      modifies this
      ensures Valid() && world == Step(config, old(world), a) && trace == old(trace) + [a]
    {
      hide Step;
      RunSnoc(config, EMPTY, trace, a);
      world := Step(config, world, a);
      trace := trace + [a];
    }

    method Interfere(env: seq<Action>, pid: nat)
      requires Valid() && Spares(env, pid)
      modifies this
      ensures Valid() && trace == old(trace) + env && SameAttempt(old(world), world, pid)
      ensures env == [] ==> world == old(world)
    {
      hide Step, Spares;
      ghost var first, before := world, trace;
      for i := 0 to |env|
        invariant Valid() && world == Run(config, first, env[..i]) && trace == before + env[..i]
      {
        assert env[..i + 1] == env[..i] + [env[i]];
        RunSnoc(config, first, env[..i], env[i]);
        assert before + env[..i + 1] == before + env[..i] + [env[i]];
        Perform(env[i]);
      }
      assert env[..|env|] == env;
      RunSparesAttempt(config, first, env, pid);
    }

    /** One attempt at a policy's current slot. Success names the one row of that slot. */
    method RunBackupPolicy(pid: nat, policy: Policy, answers: Answers) returns (result: Result<nat, string>)
      requires Valid() && pid !in world.attempts
      requires Spares(answers.beforeRequest, pid) && Spares(answers.beforeAttach, pid)
      modifies this
      ensures Valid() && old(trace) <= trace && pid in world.attempts
      ensures match result
              case Ok(id) =>
                && world.attempts[pid] == Succeeded(policy, id)
                && id < |world.backups| && OfSlot(config, world.backups[id], policy)
                && forall k :: 0 <= k < |world.backups| && OfSlot(config, world.backups[k], policy) ==> k == id
              case Err(code) => world.attempts[pid] == Refused(code)
      ensures result.Ok? ==> world.backups[result.value].schedule == Some(policy.service)
      ensures answers.beforeRequest == [] && answers.beforeAttach == [] ==>
                result == Outcome(config, old(world), policy, answers)
    {
      hide Run, Spares, RequestRowStep, AttachStep, OfSlot, Place, ObserveStep, Measured, MarkStep, Placed;
      Perform(Begin(pid, policy, answers.permitted));
      if !answers.permitted { return Err("backup_permission_revoked"); }
      Perform(ReadSource(pid, answers.read));
      if world.attempts[pid].Refused? { return Err(world.attempts[pid].code); }
      ObserveExactly(world, pid, answers.observed);
      NoProvider(world, pid, answers.observed);
      Perform(Observe(pid, answers.provider, answers.observed));
      if world.attempts[pid].Refused? { return Err(world.attempts[pid].code); }
      PlaceIgnoresAttempts(old(world), world, OrderOf(config, policy, world.attempts[pid].generation,
                                                      world.attempts[pid].bytes, world.attempts[pid].pvc));
      Interfere(answers.beforeRequest, pid);
      result := Book(pid, policy, answers);
    }

    /** The part of an attempt that writes. */
    method Book(pid: nat, policy: Policy, answers: Answers) returns (result: Result<nat, string>)
      requires Valid() && pid in world.attempts && world.attempts[pid].Requesting? && world.attempts[pid].policy == policy
      requires Spares(answers.beforeAttach, pid)
      modifies this
      ensures Valid() && old(trace) <= trace && pid in world.attempts
      ensures match result
              case Ok(id) =>
                && world.attempts[pid] == Succeeded(policy, id)
                && id < |world.backups| && OfSlot(config, world.backups[id], policy)
                && forall k :: 0 <= k < |world.backups| && OfSlot(config, world.backups[k], policy) ==> k == id
              case Err(code) => world.attempts[pid] == Refused(code)
      ensures result.Ok? ==> world.backups[result.value].schedule == Some(policy.service)
      ensures answers.beforeAttach == [] ==>
                result ==
                var a := old(world.attempts[pid]);
                var placed := Place(old(world), OrderOf(config, policy, a.generation, a.bytes, a.pvc));
                if answers.requesting != Answered || placed.Err? then Err("backup_quota_or_source_unavailable")
                else if answers.attaching != Answered then Err("backup_storage_unavailable")
                else Ok(placed.value)
    {
      hide Run, Spares, Place, Placed, OfSlot;
      Perform(RequestRow(pid, answers.requesting));
      if world.attempts[pid].Refused? { return Err(world.attempts[pid].code); }
      Interfere(answers.beforeAttach, pid);
      var id := world.attempts[pid].id;
      AttemptHasRow(config, trace, pid);
      Perform(Attach(pid, answers.attaching));
      if !answers.attaching.Answered? { return Err("backup_storage_unavailable"); }
      OnlyRowOfSlot(config, trace, pid, policy);
      result := Ok(id);
    }
  }

  lemma AttemptHasRow(c: Config, actions: seq<Action>, pid: nat)
    requires var w := Run(c, EMPTY, actions); pid in w.attempts && w.attempts[pid].Attaching?
    ensures var w := Run(c, EMPTY, actions);
            w.attempts[pid].id < |w.backups| && w.backups[w.attempts[pid].id].org == w.attempts[pid].policy.org
  {
    hide Run, Unique, WithinQuota;
    RunPreserves(c, actions);
    var w := Run(c, EMPTY, actions);
    assert AttemptOk(c, w.backups, w.attempts[pid]);
  }

  /** What the provider observed is used exactly as it was measured. */
  lemma ObserveExactly(w: World, pid: nat, observed: Option<Value>)
    requires pid in w.attempts && w.attempts[pid].Observing?
    ensures var a, w' := w.attempts[pid], ObserveStep(w, pid, true, observed);
            w' == w.(attempts := w.attempts[pid :=
              match Measured(observed)
              case None => Refused("backup_source_unavailable")
              case Some((bytes, pvc)) => Requesting(a.policy, a.generation, bytes, pvc)])
  {
  }

  lemma PlaceIgnoresAttempts(w: World, w': World, o: Order)
    requires w.backups == w'.backups && w.services == w'.services && w.ready == w'.ready
    ensures Place(w, o) == Place(w', o)
  {
    hide Exceeds;
  }

  lemma NoProvider(w: World, pid: nat, observed: Option<Value>)
    requires pid in w.attempts && w.attempts[pid].Observing?
    ensures ObserveStep(w, pid, false, observed) == w.(attempts := w.attempts[pid := Refused("backup_provider_unavailable")])
  {
  }

  lemma OnlyRowOfSlot(c: Config, actions: seq<Action>, pid: nat, policy: Policy)
    requires var w := Run(c, EMPTY, actions); pid in w.attempts && w.attempts[pid].Succeeded? && w.attempts[pid].policy == policy
    ensures var w := Run(c, EMPTY, actions);
            var id := w.attempts[pid].id;
            && id < |w.backups| && OfSlot(c, w.backups[id], policy)
            && forall k :: 0 <= k < |w.backups| && OfSlot(c, w.backups[k], policy) ==> k == id
  {
    hide Run;
    SuccessHasItsRow(c, actions, pid);
    var w := Run(c, EMPTY, actions);
    forall k | 0 <= k < |w.backups| && OfSlot(c, w.backups[k], policy) ensures k == w.attempts[pid].id {
      OneBackupPerSlot(c, actions, policy.org, policy.service, policy.nextRunAt, k, w.attempts[pid].id);
    }
  }
}
