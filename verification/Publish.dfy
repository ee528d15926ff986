/** What a receipt of the definition commands stores, and how it is replayed. */
module Publish {
  import opened Identifiers
  import opened Diagnostics

  // ---------------------------------------------------------------------------
  // Errors
  // ---------------------------------------------------------------------------

  datatype Error =
    | NotDomainOwner
    | DomainDisabled
    | DefinitionNotFound
    | DefinitionArchived
    | DefinitionNotEditable
    | DefinitionVersionImmutable
    | DefinitionKeyConflict
    | RevisionConflict
    | DirectTokenRequired
    | IdempotencyConflict
    | CommandStillProcessing
    | GraphValidationFailed(details: Details)
    | InvalidGraphDiagnosticReceipt
    | InternalConsistency(detail: string)
    | AdmissionFailed(code: string, status: int)
    | StorageError(detail: string)

  function Label(e: Error): string {
    match e
    case NotDomainOwner => "not_domain_owner"
    case DomainDisabled => "domain_disabled"
    case DefinitionNotFound => "definition_not_found"
    case DefinitionArchived => "definition_not_editable"
    case DefinitionNotEditable => "definition_not_editable"
    case DefinitionVersionImmutable => "definition_version_immutable"
    case DefinitionKeyConflict => "definition_key_conflict"
    case RevisionConflict => "revision_conflict"
    case DirectTokenRequired => "direct_token_required"
    case IdempotencyConflict => "idempotency_conflict"
    case CommandStillProcessing => "command_still_processing"
    case GraphValidationFailed(_) => "graph_validation_failed"
    case InvalidGraphDiagnosticReceipt => "internal_consistency_error"
    case InternalConsistency(_) => "internal_consistency_error"
    case AdmissionFailed(code, _) => code
    case StorageError(_) => "service_unavailable"
  }

  function StatusCode(e: Error): int {
    match e
    case NotDomainOwner | DomainDisabled | DirectTokenRequired => 403
    case DefinitionNotFound => 404
    case DefinitionArchived | DefinitionNotEditable | DefinitionVersionImmutable | DefinitionKeyConflict | RevisionConflict | IdempotencyConflict => 409
    case CommandStillProcessing => 425
    case GraphValidationFailed(_) => 422
    case InvalidGraphDiagnosticReceipt => 500
    case InternalConsistency(_) => 500
    case AdmissionFailed(_, status) => status
    case StorageError(_) => 503
  }

  // ---------------------------------------------------------------------------
  // Receipt bodies
  // ---------------------------------------------------------------------------

  datatype Value = Text(text: string) | DetailsValue(details: Details) | OtherValue(raw: string)

  /** A JSON object by its members, or a serialized published version. */
  datatype Body = Members(members: map<string, Value>) | VersionBody(version: Version)

  datatype Version = Version(id: Uuid, digest: string)

  const GRAPH_FAILED := "graph_validation_failed"

  predicate HexDigit(c: char) {
    '0' <= c <= '9' || 'a' <= c <= 'f'
  }

  predicate IsDigest(h: string) {
    |h| == 64 && forall k :: 0 <= k < |h| ==> HexDigit(h[k])
  }

  /** The member `name` as a string. */
  function Str(b: Body, name: string): Option<string> {
    if b.Members? && name in b.members && b.members[name].Text? then Some(b.members[name].text) else None
  }

  function ErrorBody(e: Error, hash: string): Body {
    if e.GraphValidationFailed?
    then Members(map["error" := Text(Label(e)), "details" := DetailsValue(e.details), "graphInputHash" := Text(hash)])
    else Members(map["error" := Text(Label(e))])
  }

  /** from_receipt on the stored member; anything that is not a projection is None. */
  function DecodedDetails(c: Catalog, b: Body): Option<Details> {
    if b.Members? && "details" in b.members && b.members["details"].DetailsValue? && Admissible(c, b.members["details"].details)
    then Some(b.members["details"].details) else None
  }

  function ErrorFromBody(c: Catalog, b: Body): Error {
    match Str(b, "error")
    case None => InternalConsistency("completed receipt contains an unknown error")
    case Some(code) =>
      if code == GRAPH_FAILED then
        if !b.Members? || |b.members| != 3 then InvalidGraphDiagnosticReceipt
        else (match DecodedDetails(c, b) case Some(d) => GraphValidationFailed(d) case None => InvalidGraphDiagnosticReceipt)
      else if code == "not_domain_owner" then NotDomainOwner
      else if code == "domain_disabled" then DomainDisabled
      else if code == "definition_not_found" then DefinitionNotFound
      else if code == "definition_not_editable" then DefinitionNotEditable
      else if code == "definition_version_immutable" then DefinitionVersionImmutable
      else if code == "definition_key_conflict" then DefinitionKeyConflict
      else if code == "revision_conflict" then RevisionConflict
      else if code == "direct_token_required" then DirectTokenRequired
      else if code == "idempotency_conflict" then IdempotencyConflict
      else if code == "command_still_processing" then CommandStillProcessing
      else InternalConsistency("completed receipt contains an unknown error")
  }

  datatype Acquired = Owned | Replay(status: int, body: Body) | Conflict | Processing

  datatype Reply = Ok(version: Version) | Err(error: Error)

  /** handle_receipt_result for a receipt that is not owned. */
  function HandleReceiptResult(c: Catalog, a: Acquired, hash: string): Reply
    requires !a.Owned?
  {
    match a
    case Replay(status, body) =>
      if Str(body, "error") == Some(GRAPH_FAILED) && status != 422 then Err(InvalidGraphDiagnosticReceipt)
      else if status == 200 then
        (match body case VersionBody(v) => Ok(v) case Members(_) => Err(InternalConsistency("failed to deserialize replayed response")))
      else if Str(body, "error") == Some(GRAPH_FAILED) then
        (match Str(body, "graphInputHash")
         case None => Err(InvalidGraphDiagnosticReceipt)
         case Some(stored) =>
           if !IsDigest(stored) then Err(InvalidGraphDiagnosticReceipt)
           else
             var decoded := ErrorFromBody(c, body);
             if decoded.InvalidGraphDiagnosticReceipt? then Err(decoded)
             else if stored != hash then Err(IdempotencyConflict)
             else Err(decoded))
      else Err(ErrorFromBody(c, body))
    case Conflict => Err(IdempotencyConflict)
    case Processing => Err(CommandStillProcessing)
  }

  // ---------------------------------------------------------------------------
  // Replay of stored errors
  // ---------------------------------------------------------------------------

  /** A stored graph rejection replays the very diagnostics for the same input hash, and an
      idempotency conflict for any other; for every list of validator errors. */
  lemma GraphRejectionReplays(c: Catalog, errors: seq<string>, stored: string, hash: string)
    requires CatalogOk(c) && IsDigest(stored)
    ensures var e := GraphValidationFailed(Project(c, errors));
            HandleReceiptResult(c, Replay(StatusCode(e), ErrorBody(e, stored)), hash)
            == if stored == hash then Err(e) else Err(IdempotencyConflict)
  {
    ProjectionAdmissible(c, errors);
    AdmissibleReplays(c, Project(c, errors), stored, hash);
  }

  lemma AdmissibleReplays(c: Catalog, d: Details, stored: string, hash: string)
    requires Admissible(c, d) && IsDigest(stored)
    ensures var e := GraphValidationFailed(d);
            HandleReceiptResult(c, Replay(StatusCode(e), ErrorBody(e, stored)), hash)
            == if stored == hash then Err(e) else Err(IdempotencyConflict)
  {
    var body := ErrorBody(GraphValidationFailed(d), stored);
    assert |"error"| == 5 && |"details"| == 7 && |"graphInputHash"| == 14;
    assert body.members.Keys == {"error", "details", "graphInputHash"};
    assert |body.members.Keys| == 3;
  }

  /** An error the publish path stores. */
  predicate Stored(e: Error) {
    !e.AdmissionFailed? && !e.StorageError? && !e.InternalConsistency?
  }

  /** Which stored error comes back as itself: all but an archived definition, which comes back
      as "not editable" with the same label and status, and a failed replay of diagnostics. */
  lemma StoredErrorReplays(c: Catalog, e: Error, hash: string)
    requires Stored(e) && IsDigest(hash) && (e.GraphValidationFailed? ==> Admissible(c, e.details))
    ensures var r := HandleReceiptResult(c, Replay(StatusCode(e), ErrorBody(e, hash)), hash);
            && (r == Err(e) <==> !e.DefinitionArchived? && !e.InvalidGraphDiagnosticReceipt?)
            && (!e.InvalidGraphDiagnosticReceipt? ==> r.Err? && Label(r.error) == Label(e) && StatusCode(r.error) == StatusCode(e))
            && (e.DefinitionArchived? ==> r == Err(DefinitionNotEditable))
  {
    hide Admissible, IsDigest;
    if e.GraphValidationFailed? {
      AdmissibleReplays(c, e.details, hash, hash);
    } else {
      LabelsDiffer();
    }
  }

  /** A stored graph rejection is trusted only as a whole: it replays its diagnostics exactly if status,
      number of members, details and hash are as they were stored, conflicts exactly if only the hash
      of the request differs, and is reported as corrupt in every other case. */
  lemma RejectionTrustedExactly(c: Catalog, status: int, body: Body, hash: string)
    requires body.Members? && "error" in body.members && body.members["error"] == Text("graph_validation_failed")
    ensures var r := HandleReceiptResult(c, Replay(status, body), hash);
            var whole := && status == 422 && |body.members| == 3
                         && "graphInputHash" in body.members && body.members["graphInputHash"].Text?
                         && |body.members["graphInputHash"].text| == 64
                         && (forall x :: x in body.members["graphInputHash"].text ==> 48 <= x as int <= 57 || 97 <= x as int <= 102)
                         && "details" in body.members && body.members["details"].DetailsValue?
                         && Admissible(c, body.members["details"].details);
            && (whole && body.members["graphInputHash"].text == hash ==> r == Err(GraphValidationFailed(body.members["details"].details)))
            && (whole && body.members["graphInputHash"].text != hash ==> r == Err(IdempotencyConflict))
            && (!whole ==> r == Err(InvalidGraphDiagnosticReceipt))
  {
    hide Admissible;
    if "graphInputHash" in body.members && body.members["graphInputHash"].Text? {
      DigestExactly(body.members["graphInputHash"].text);
    }
  }

  lemma DigestExactly(h: string)
    ensures IsDigest(h) <==> |h| == 64 && forall x :: x in h ==> 48 <= x as int <= 57 || 97 <= x as int <= 102
  {
    assert forall k :: 0 <= k < |h| ==> h[k] in h;
  }

  /** Any other stored answer that is no success: a known label is its error, anything else is
      reported as inconsistent, never as a success. */
  lemma UnknownErrorIsInconsistent(c: Catalog, status: int, body: Body, hash: string)
    requires status != 200
    requires Str(body, "error").None?
             || Str(body, "error").value !in {"graph_validation_failed", "not_domain_owner", "domain_disabled", "definition_not_found",
                  "definition_not_editable", "definition_version_immutable", "definition_key_conflict", "revision_conflict",
                  "direct_token_required", "idempotency_conflict", "command_still_processing"}
    ensures HandleReceiptResult(c, Replay(status, body), hash) == Err(InternalConsistency("completed receipt contains an unknown error"))
  {
  }

  /** What a caller can tell from a status. */
  lemma StatusTells(e: Error)
    requires !e.AdmissionFailed?
    ensures StatusCode(e) == 403 <==> e.NotDomainOwner? || e.DomainDisabled? || e.DirectTokenRequired?
    ensures StatusCode(e) == 404 <==> e.DefinitionNotFound?
    ensures StatusCode(e) == 409 <==> || e.DefinitionArchived? || e.DefinitionNotEditable? || e.DefinitionVersionImmutable?
                                      || e.DefinitionKeyConflict? || e.RevisionConflict? || e.IdempotencyConflict?
    ensures StatusCode(e) == 425 <==> e.CommandStillProcessing?
    ensures StatusCode(e) == 422 <==> e.GraphValidationFailed?
    ensures StatusCode(e) == 500 <==> e.InternalConsistency? || e.InvalidGraphDiagnosticReceipt?
    ensures StatusCode(e) == 503 <==> e.StorageError?
  {
  }

  /** The stored labels are pairwise different. */
  lemma LabelsDiffer()
    ensures |GRAPH_FAILED| == 23 && |"not_domain_owner"| == 16 && |"domain_disabled"| == 15 && |"definition_not_found"| == 20
    ensures |"definition_not_editable"| == 23 && |"definition_version_immutable"| == 28 && |"definition_key_conflict"| == 23
    ensures |"revision_conflict"| == 17 && |"direct_token_required"| == 21 && |"idempotency_conflict"| == 20
    ensures |"command_still_processing"| == 24 && |"internal_consistency_error"| == 26
    ensures "definition_not_editable"[11] == 'n' && "definition_key_conflict"[11] == 'k' && GRAPH_FAILED[0] == 'g'
    ensures "definition_not_editable"[0] == 'd' && "definition_key_conflict"[0] == 'd'
    ensures "definition_not_found"[0] == 'd' && "idempotency_conflict"[0] == 'i'
  {
  }
}
