/** Deployment policy of a Flash service: serde defaults, parsing and validation. */
module DeploymentPolicies {
  import opened Basics
  import opened Outcomes
  import opened Json

  datatype HealthCheck = HealthCheck(port: nat, path: Option<string>)

  datatype DeploymentPolicy = DeploymentPolicy(
    strategy: string,
    stateless: bool,
    deadlineSeconds: nat,
    autoRollback: bool,
    healthCheck: Option<HealthCheck>)

  const DEFAULT_POLICY := DeploymentPolicy("auto", false, 600, true, None)

  const POLICY_FIELDS := {"strategy", "stateless", "deadline_seconds", "auto_rollback", "health_check"}

  function ParseHealthCheck(v: Value): Option<HealthCheck> {
    if v.Obj? && v.fields.Keys <= {"port", "path"} && At(v, "port").Num? && 0 <= At(v, "port").n <= U16_MAX
       && (At(v, "path").Null? || At(v, "path").Str?)
    then Some(HealthCheck(At(v, "port").n, AsStr(At(v, "path"))))
    else None
  }

  /** Deserialisation with defaults; unknown members and wrongly typed members are refused. */
  function ParsePolicy(v: Value): Option<DeploymentPolicy> {
    if !v.Obj? || !(v.fields.Keys <= POLICY_FIELDS) then None
    else if "strategy" in v.fields && !v.fields["strategy"].Str? then None
    else if "stateless" in v.fields && !v.fields["stateless"].Bool? then None
    else if "deadline_seconds" in v.fields
            && !(v.fields["deadline_seconds"].Num? && 0 <= v.fields["deadline_seconds"].n <= U32_MAX) then None
    else if "auto_rollback" in v.fields && !v.fields["auto_rollback"].Bool? then None
    else if !At(v, "health_check").Null? && ParseHealthCheck(At(v, "health_check")).None? then None
    else Some(DeploymentPolicy(
      if "strategy" in v.fields then v.fields["strategy"].s else "auto",
      if "stateless" in v.fields then v.fields["stateless"].b else false,
      if "deadline_seconds" in v.fields then v.fields["deadline_seconds"].n else 600,
      if "auto_rollback" in v.fields then v.fields["auto_rollback"].b else true,
      if At(v, "health_check").Null? then None else ParseHealthCheck(At(v, "health_check"))))
  }

  /** The member holds this value, or is absent and the value is the default. */
  predicate Holds<T(==)>(fields: map<string, Value>, key: string, wrap: T -> Value, value: T, fallback: T) {
    if key in fields then fields[key] == wrap(value) else value == fallback
  }

  predicate HealthCheckTells(v: Value, check: Option<HealthCheck>) {
    match v
    case Null => check == None
    case Obj(fields) =>
      && check.Some? && (forall key :: key in fields ==> key == "port" || key == "path")
      && "port" in fields && fields["port"] == Num(check.value.port) && check.value.port < 65536
      && (match check.value.path
          case Some(path) => "path" in fields && fields["path"] == Str(path)
          case None => "path" !in fields || fields["path"] == Null)
    case _ => false
  }

  /** The object tells exactly this policy: member by member, with the defaults of absent ones. */
  predicate Tells(v: Value, p: DeploymentPolicy) {
    && v.Obj?
    && (forall key :: key in v.fields ==>
          || key == "strategy" || key == "stateless" || key == "deadline_seconds" || key == "auto_rollback"
          || key == "health_check")
    && Holds(v.fields, "strategy", s => Str(s), p.strategy, "auto")
    && Holds(v.fields, "stateless", b => Bool(b), p.stateless, false)
    && Holds(v.fields, "deadline_seconds", n => Num(n), p.deadlineSeconds, 600)
    && p.deadlineSeconds < 0x1_0000_0000
    && Holds(v.fields, "auto_rollback", b => Bool(b), p.autoRollback, true)
    && HealthCheckTells(if "health_check" in v.fields then v.fields["health_check"] else Null, p.healthCheck)
  }

  /** Parsing gives the policy an object tells, and refuses every object that tells none. */
  lemma ParsesExactly(v: Value, p: DeploymentPolicy)
    ensures ParsePolicy(v) == Some(p) <==> Tells(v, p)
  {
  }

  predicate ValidPolicy(p: DeploymentPolicy) {
    && p.strategy in {"auto", "rolling", "recreate"}
    && (p.strategy == "rolling" ==> p.stateless)
    && 60 <= p.deadlineSeconds <= 3600
    && (p.healthCheck.Some? ==>
          && p.healthCheck.value.port != 0
          && (p.healthCheck.value.path.Some? ==>
                var path := p.healthCheck.value.path.value;
                && path != [] && path[0] == '/' && |path| <= 1024
                && forall i :: 0 <= i < |path| ==> !IsControl(path[i])))
  }
}

/** Which settings a rollback restores and which it keeps. */
module RollbackSpecs {
  import opened Outcomes
  import opened Json
  import opened DeploymentPolicies

  /** A stored service specification: a JSON object. */
  type Spec = map<string, Value>

  const ACCESS_KEYS: seq<string> := [
    "task_role", "env", "secret_env", "secret_files", "network", "exposure", "egress", "stopped",
    "restore_from_backup_id", "metadata", "region"]

  const STORAGE_KEYS: seq<string> := ["ephemeral_storage_gib", "persistent_storage_gib"]

  /** Identity, secrets, network, exposure, the run switch and what a service is about. */
  predicate IsAccess(key: string) {
    || key == "task_role" || key == "env" || key == "secret_env" || key == "secret_files" || key == "network"
    || key == "exposure" || key == "egress" || key == "stopped" || key == "restore_from_backup_id"
    || key == "metadata" || key == "region"
  }

  predicate IsDisk(key: string) {
    key == "ephemeral_storage_gib" || key == "persistent_storage_gib"
  }

  lemma KeysAreThese(key: string)
    ensures key in ACCESS_KEYS <==> IsAccess(key)
    ensures key in STORAGE_KEYS <==> IsDisk(key)
  {
    assert forall i :: 0 <= i < |ACCESS_KEYS| ==> IsAccess(ACCESS_KEYS[i]);
    assert ACCESS_KEYS[0] == "task_role" && ACCESS_KEYS[1] == "env" && ACCESS_KEYS[2] == "secret_env"
        && ACCESS_KEYS[3] == "secret_files" && ACCESS_KEYS[4] == "network" && ACCESS_KEYS[5] == "exposure"
        && ACCESS_KEYS[6] == "egress" && ACCESS_KEYS[7] == "stopped" && ACCESS_KEYS[8] == "restore_from_backup_id"
        && ACCESS_KEYS[9] == "metadata" && ACCESS_KEYS[10] == "region";
    assert STORAGE_KEYS[0] == "ephemeral_storage_gib" && STORAGE_KEYS[1] == "persistent_storage_gib";
  }

  function Field(spec: Spec, key: string): Option<Value> {
    if key in spec then Some(spec[key]) else None
  }

  /** Reads `spec.get(key).and_then(as_u64)`. */
  function Size(spec: Spec, key: string): Option<nat> {
    if key in spec then AsU64(spec[key]) else None
  }

  function Max(a: int, b: int): int { if a < b then b else a }

  /** What each member of a rolled-back specification must be, member by member. */
  function RestoredField(target: Spec, current: Spec, key: string): Option<Value> {
    if key in ACCESS_KEYS then Field(current, key)
    else if key in STORAGE_KEYS && Size(current, key).Some? then
      Some(Num(Max(if Size(target, key).Some? then Size(target, key).value else 0, Size(current, key).value)))
    else Field(target, key)
  }

  /** The specification with exactly the members `RestoredField` describes. */
  function Restored(target: Spec, current: Spec): Spec {
    map key | key in target.Keys + current.Keys && RestoredField(target, current, key).Some?
      :: RestoredField(target, current, key).value
  }

  lemma RestoredFields(target: Spec, current: Spec)
    ensures forall key :: Field(Restored(target, current), key) == RestoredField(target, current, key)
  {
    forall key
      ensures Field(Restored(target, current), key) == RestoredField(target, current, key)
    {
      assert RestoredField(target, current, key).Some? ==> key in target.Keys + current.Keys;
    }
  }

  lemma SameFields(a: Spec, b: Spec)
    requires forall key :: Field(a, key) == Field(b, key)
    ensures a == b
  {
    assert forall key :: key in a <==> Field(a, key).Some?;
    assert forall key :: key in b <==> Field(b, key).Some?;
    assert forall key :: key in a ==> a[key] == Field(a, key).value && b[key] == Field(b, key).value;
  }

  lemma StorageIsNotAccess()
    ensures forall i :: 0 <= i < |STORAGE_KEYS| ==> STORAGE_KEYS[i] !in ACCESS_KEYS
    ensures "deployment" !in ACCESS_KEYS && "deployment" !in STORAGE_KEYS && "deployment" != "ports"
    ensures "ports" !in ACCESS_KEYS
    ensures STORAGE_KEYS[0] != STORAGE_KEYS[1]
  {
    assert |"deployment"| == 10 && "deployment"[0] == 'd';
    assert forall i :: 0 <= i < |ACCESS_KEYS| ==> |ACCESS_KEYS[i]| != 10 || ACCESS_KEYS[i][0] == 's';
    assert |"ports"| == 5;
    assert forall i :: 0 <= i < |ACCESS_KEYS| ==> |ACCESS_KEYS[i]| != 5;
    assert |STORAGE_KEYS[0]| == 21 && |STORAGE_KEYS[1]| == 22;
    assert forall i :: 0 <= i < |ACCESS_KEYS| ==> |ACCESS_KEYS[i]| != 21;
    assert forall i :: 0 <= i < |ACCESS_KEYS| && |ACCESS_KEYS[i]| == 22 ==> ACCESS_KEYS[i][0] == 'r';
    assert STORAGE_KEYS[1][0] == 'p';
  }

  /** First pass of the merge: every access setting becomes the current one, or absent. */
  method KeepAccess(target: Spec, current: Spec) returns (next: Spec)
    ensures forall key :: Field(next, key) == if key in ACCESS_KEYS then Field(current, key) else Field(target, key)
  {
    next := target;
    for i := 0 to |ACCESS_KEYS|
      invariant forall key :: Field(next, key) ==
                              if key in ACCESS_KEYS[..i] then Field(current, key) else Field(target, key)
    {
      var key := ACCESS_KEYS[i];
      assert ACCESS_KEYS[..i + 1] == ACCESS_KEYS[..i] + [key];
      if key in current {
        next := next[key := current[key]];
      } else {
        next := next - {key};
      }
    }
    assert ACCESS_KEYS[..|ACCESS_KEYS|] == ACCESS_KEYS;
  }

  /** Second pass: a disk keeps the larger of its two sizes. */
  method KeepDisks(target: Spec, current: Spec, merged: Spec) returns (next: Spec)
    requires forall key :: key in STORAGE_KEYS ==> Field(merged, key) == Field(target, key) && key !in ACCESS_KEYS
    ensures forall key :: Field(next, key) ==
                          if key in STORAGE_KEYS then RestoredField(target, current, key) else Field(merged, key)
  {
    StorageIsNotAccess();
    next := merged;
    for i := 0 to |STORAGE_KEYS|
      invariant forall key :: Field(next, key) ==
                              if key in STORAGE_KEYS[..i] then RestoredField(target, current, key) else Field(merged, key)
    {
      var key := STORAGE_KEYS[i];
      assert STORAGE_KEYS[..i + 1] == STORAGE_KEYS[..i] + [key];
      assert key !in STORAGE_KEYS[..i];
      assert Field(next, key) == Field(target, key);
      if Size(current, key).Some? {
        var previous := if Size(next, key).Some? then Size(next, key).value else 0;
        next := next[key := Num(Max(previous, Size(current, key).value))];
      }
    }
    assert STORAGE_KEYS[..|STORAGE_KEYS|] == STORAGE_KEYS;
  }

  /** The in-place merge: start from the target, then walk the two key lists. */
  method RollbackSpec(target: Spec, current: Spec) returns (next: Spec)
    ensures next == Restored(target, current)
  {
    StorageIsNotAccess();
    next := KeepAccess(target, current);
    next := KeepDisks(target, current, next);
    RestoredFields(target, current);
    SameFields(next, Restored(target, current));
  }

  /** The policy `observe` uses: absent, null and unreadable policies fall back to the default. */
  function PolicyOf(spec: Spec): DeploymentPolicy {
    if "deployment" in spec && !spec["deployment"].Null? && ParsePolicy(spec["deployment"]).Some?
    then ParsePolicy(spec["deployment"]).value
    else DEFAULT_POLICY
  }

  /** The part of the store's specification check that concerns the deployment policy. */
  predicate PolicyAccepted(spec: Spec) {
    "deployment" in spec && !spec["deployment"].Null? ==>
      ParsePolicy(spec["deployment"]).Some? && ValidPolicy(ParsePolicy(spec["deployment"]).value)
  }

  /** A usable policy: a known strategy, rolling only without a disk, a deadline of a minute to an hour, a usable check. */
  predicate Usable(p: DeploymentPolicy) {
    && (p.strategy == "auto" || p.strategy == "recreate" || (p.strategy == "rolling" && p.stateless))
    && 60 <= p.deadlineSeconds <= 3600
    && match p.healthCheck
       case None => true
       case Some(HealthCheck(port, path)) =>
         && 1 <= port
         && (path.Some? ==>
               && "/" <= path.value && |path.value| <= 1024
               && forall i :: 0 <= i < |path.value| ==> 32 <= path.value[i] as int && !(127 <= path.value[i] as int <= 159))
  }

  /** The policy in force is the one the specification tells, or the default; the store accepts only usable ones. */
  lemma PoliciesExactly(spec: Spec, p: DeploymentPolicy)
    ensures Field(spec, "deployment") == None || Field(spec, "deployment") == Some(Null) ==>
              PolicyAccepted(spec) && PolicyOf(spec) == DeploymentPolicy("auto", false, 600, true, None)
    ensures "deployment" in spec && Tells(spec["deployment"], p) ==>
              PolicyOf(spec) == p && (PolicyAccepted(spec) <==> Usable(p))
    ensures "deployment" in spec && spec["deployment"] != Null && (forall q :: !Tells(spec["deployment"], q)) ==>
              !PolicyAccepted(spec) && PolicyOf(spec) == DeploymentPolicy("auto", false, 600, true, None)
  {
    hide ParsePolicy, Tells;
    if "deployment" in spec {
      var v := spec["deployment"];
      ParsesExactly(v, p);
      if ParsePolicy(v).Some? {
        ParsesExactly(v, ParsePolicy(v).value);
      }
      NullTellsNothing(p);
    }
  }

  lemma NullTellsNothing(p: DeploymentPolicy)
    ensures !Tells(Null, p)
  {
  }

  /** Every accepted specification has a deadline of at least a minute. */
  lemma AcceptedDeadline(spec: Spec)
    requires PolicyAccepted(spec)
    ensures 60 <= PolicyOf(spec).deadlineSeconds <= 3600
  {
  }

  predicate Stopped(spec: Spec) {
    "stopped" in spec && spec["stopped"] == Bool(true)
  }
}
