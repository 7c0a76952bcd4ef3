/** What is kept of a provider's report about a backup. */
module BackupStatus {
  import opened Basics
  import opened Outcomes
  import opened Json

  const MESSAGES: set<string> := {"backup_storage_error", "backup_storage_missing", "backup_source_unavailable"}
  const REPORTED_PHASES: set<string> := {"pending", "creating", "ready", "error", "deleting"}
  const VERIFICATION_PHASES: set<string> := {"queued", "restoring", "cleaning", "passed", "failed"}
  const BAD_GATEWAY: int := 502

  predicate OneOf(v: Value, allowed: set<string>) {
    v.Str? && v.s in allowed
  }

  function ShortText(v: Value): Value {
    if v.Str? && |v.s| <= 40 then v else Null
  }

  function Count(v: Value): Value {
    if AsU64(v).Some? then v else Null
  }

  predicate IsDigest(v: Value) {
    v.Str? && |v.s| == 64 && forall i :: 0 <= i < |v.s| ==> IsHex(v.s[i])
  }

  function Digest(v: Value): Value {
    if IsDigest(v) then v else Null
  }

  function ValidatedVerification(v: Value): Value {
    if !OneOf(At(v, "phase"), VERIFICATION_PHASES) then Null
    else
      Obj(map[
        "phase" := At(v, "phase"),
        "started_at" := ShortText(At(v, "started_at")),
        "completed_at" := ShortText(At(v, "completed_at")),
        "sampled_files" := Count(At(v, "sampled_files")),
        "sampled_bytes" := Count(At(v, "sampled_bytes")),
        "sha256" := Digest(At(v, "sha256")),
        "cleanup_verified" := Bool(At(v, "cleanup_verified") == Bool(true))])
  }

  function Message(v: Value): Value {
    if OneOf(v, MESSAGES) then v else Null
  }

  /** Reports about another backup, or in an unknown phase, are refused; of the others only safe fields are kept. */
  function ValidatedStatus(id: string, v: Value): Result<Value, int> {
    if At(v, "id") != Str(id) || !OneOf(At(v, "phase"), REPORTED_PHASES) then Err(BAD_GATEWAY)
    else
      Ok(Obj(map[
        "id" := Str(id),
        "phase" := At(v, "phase"),
        "completed_at" := At(v, "completed_at"),
        "message" := Message(At(v, "message")),
        "restore_verification" := ValidatedVerification(At(v, "restore_verification"))]))
  }

  // ---------------------------------------------------------------- what is safe to keep

  const VERIFICATION_KEYS: set<string> :=
    {"phase", "started_at", "completed_at", "sampled_files", "sampled_bytes", "sha256", "cleanup_verified"}

  predicate WellFormedVerification(v: Value) {
    && v.Obj? && v.fields.Keys == VERIFICATION_KEYS
    && OneOf(v.fields["phase"], VERIFICATION_PHASES)
    && (v.fields["started_at"] == Null || (v.fields["started_at"].Str? && |v.fields["started_at"].s| <= 40))
    && (v.fields["completed_at"] == Null || (v.fields["completed_at"].Str? && |v.fields["completed_at"].s| <= 40))
    && (v.fields["sampled_files"] == Null || AsU64(v.fields["sampled_files"]).Some?)
    && (v.fields["sampled_bytes"] == Null || AsU64(v.fields["sampled_bytes"]).Some?)
    && (v.fields["sha256"] == Null || IsDigest(v.fields["sha256"]))
    && v.fields["cleanup_verified"].Bool?
  }

  const REPORT_KEYS: set<string> := {"id", "phase", "completed_at", "message", "restore_verification"}

  /** A member is absent, or one of the values it may safely take. */
  predicate SafeMember(id: string, key: string, v: Value) {
    match key
    case "id" => v == Str(id)
    case "phase" => OneOf(v, REPORTED_PHASES)
    case "completed_at" => true
    case "message" => v == Null || OneOf(v, MESSAGES)
    case "restore_verification" => v == Null || WellFormedVerification(v)
    case "last_verified_at" => true
    case "provider_unavailable" => v.Bool?
    case _ => false
  }

  /** Only known members, each holding a safe value. */
  ghost predicate Sanitised(id: string, v: Value) {
    v.Obj? && forall key :: key in v.fields ==> SafeMember(id, key, v.fields[key])
  }

  /** Exactly a complete report: every member of one, and nothing else. */
  ghost predicate IsReport(id: string, v: Value) {
    Sanitised(id, v) && v.fields.Keys == REPORT_KEYS
  }

  /** The member as it was reported, or absent. */
  predicate KeptIf(kept: Value, v: Value, key: string, safe: bool) {
    kept == if v.Obj? && key in v.fields && safe then v.fields[key] else Null
  }

  predicate IsCount(v: Value) {
    v.Num? && 0 <= v.n < 0x1_0000_0000_0000_0000
  }

  predicate IsHexDigest(v: Value) {
    v.Str? && |v.s| == 64 && forall i :: 0 <= i < |v.s| ==> v.s[i] in "0123456789abcdefABCDEF"
  }

  /** What is kept of each member of a report, and of its verification: the member itself if it is safe. */
  lemma KeptMembers(id: string, v: Value)
    requires ValidatedStatus(id, v).Ok?
    ensures var kept := ValidatedStatus(id, v).value;
            && kept.Obj? && kept.fields.Keys == {"id", "phase", "completed_at", "message", "restore_verification"}
            && kept.fields["id"] == Str(id)
            && KeptIf(kept.fields["phase"], v, "phase", true)
            && KeptIf(kept.fields["completed_at"], v, "completed_at", true)
            && KeptIf(kept.fields["message"], v, "message",
                      At(v, "message") in {
                        Str("backup_storage_error"), Str("backup_storage_missing"), Str("backup_source_unavailable")})
            && kept.fields["restore_verification"] == ValidatedVerification(At(v, "restore_verification"))
  {
    hide ValidatedVerification;
  }

  lemma KeptVerification(v: Value)
    ensures var phase, kept := At(v, "phase"), ValidatedVerification(v);
            if phase in {Str("queued"), Str("restoring"), Str("cleaning"), Str("passed"), Str("failed")}
            then && kept.Obj? && kept.fields.Keys == VERIFICATION_KEYS
                 && KeptIf(kept.fields["phase"], v, "phase", true)
                 && KeptIf(kept.fields["started_at"], v, "started_at",
                           At(v, "started_at").Str? && |At(v, "started_at").s| <= 40)
                 && KeptIf(kept.fields["completed_at"], v, "completed_at",
                           At(v, "completed_at").Str? && |At(v, "completed_at").s| <= 40)
                 && KeptIf(kept.fields["sampled_files"], v, "sampled_files", IsCount(At(v, "sampled_files")))
                 && KeptIf(kept.fields["sampled_bytes"], v, "sampled_bytes", IsCount(At(v, "sampled_bytes")))
                 && KeptIf(kept.fields["sha256"], v, "sha256", IsHexDigest(At(v, "sha256")))
                 && kept.fields["cleanup_verified"] == Bool(At(v, "cleanup_verified") == Bool(true))
            else kept == Null
  {
    hide IsDigest, IsHexDigest;
    DigestIsHex(At(v, "sha256"));
  }

  lemma DigestIsHex(v: Value)
    ensures IsDigest(v) <==> IsHexDigest(v)
  {
    if v.Str? {
      forall i | 0 <= i < |v.s| ensures IsHex(v.s[i]) <==> v.s[i] in "0123456789abcdefABCDEF" { HexDigits(v.s[i]); }
    }
  }

  lemma WellFormedIsKept(v: Value)
    requires WellFormedVerification(v)
    ensures ValidatedVerification(v) == v
  {
    hide ValidatedVerification, IsDigest, IsHexDigest;
    KeptVerification(v);
    DigestIsHex(v.fields["sha256"]);
    var kept := ValidatedVerification(v);
    assert v.fields["cleanup_verified"] == Bool(v.fields["cleanup_verified"] == Bool(true));
    assert forall key :: key in VERIFICATION_KEYS ==> kept.fields[key] == v.fields[key];
    assert kept.fields == v.fields;
  }

  lemma ValidatedIsWellFormed(v: Value)
    ensures ValidatedVerification(v) == Null || WellFormedVerification(ValidatedVerification(v))
    ensures ValidatedVerification(v) == Null <==> !OneOf(At(v, "phase"), VERIFICATION_PHASES)
  {
    hide IsDigest, OneOf;
  }

  lemma VerificationIsProjection(v: Value)
    ensures ValidatedVerification(v) == Null || WellFormedVerification(ValidatedVerification(v))
    ensures v == Null || WellFormedVerification(v) ==> ValidatedVerification(v) == v
    ensures ValidatedVerification(v) == Null <==> !OneOf(At(v, "phase"), VERIFICATION_PHASES)
  {
    hide ValidatedVerification, WellFormedVerification, OneOf;
    ValidatedIsWellFormed(v);
    if v == Null {
      NullIsNoText();
    } else if WellFormedVerification(v) {
      WellFormedIsKept(v);
    }
  }

  lemma NullIsNoText()
    ensures !OneOf(Null, VERIFICATION_PHASES)
  {
  }

  /**
  What is accepted is a complete safe report, and complete safe reports are exactly what passes
  unchanged; in particular validating twice is validating once.
  */
  lemma ValidationIsProjection(id: string, v: Value)
    ensures ValidatedStatus(id, v).Ok? <==> At(v, "id") == Str(id) && OneOf(At(v, "phase"), REPORTED_PHASES)
    ensures ValidatedStatus(id, v).Ok? ==> IsReport(id, ValidatedStatus(id, v).value)
    ensures ValidatedStatus(id, v) == Ok(v) <==> IsReport(id, v)
    ensures ValidatedStatus(id, v).Ok? ==> ValidatedStatus(id, ValidatedStatus(id, v).value) == ValidatedStatus(id, v)
  {
    hide IsReport;
    if IsReport(id, v) {
      ReportPasses(id, v);
    }
    if ValidatedStatus(id, v).Ok? {
      AcceptedIsReport(id, v);
      ReportPasses(id, ValidatedStatus(id, v).value);
    }
  }

  lemma AcceptedIsReport(id: string, v: Value)
    requires ValidatedStatus(id, v).Ok?
    ensures IsReport(id, ValidatedStatus(id, v).value)
  {
    hide ValidatedVerification, WellFormedVerification, OneOf;
    VerificationIsProjection(At(v, "restore_verification"));
    var kept := ValidatedStatus(id, v).value;
    assert kept.fields.Keys == REPORT_KEYS;
  }

  lemma ReportPasses(id: string, v: Value)
    requires IsReport(id, v)
    ensures ValidatedStatus(id, v) == Ok(v)
  {
    hide ValidatedVerification, WellFormedVerification, OneOf;
    forall key | key in REPORT_KEYS ensures SafeMember(id, key, v.fields[key]) { }
    VerificationIsProjection(v.fields["restore_verification"]);
    assert SafeMember(id, "id", v.fields["id"]);
    assert SafeMember(id, "phase", v.fields["phase"]);
    assert SafeMember(id, "message", v.fields["message"]);
    assert SafeMember(id, "restore_verification", v.fields["restore_verification"]);
    var kept := ValidatedStatus(id, v).value;
    assert kept.fields == v.fields;
  }
}
