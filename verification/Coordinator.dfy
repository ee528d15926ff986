/** The coordinator control plane: displayName updates and binding reconciliation behind
    idempotency receipts, and the read-only reconciliation plan. */
module Coordinator {
  import opened Identifiers
  import opened Store
  import Ledger
  import Bindings

  const DOMAIN_OWNER := Bindings.DOMAIN_OWNER
  const DOMAIN_MEMBER := Bindings.DOMAIN_MEMBER

  // ---------------------------------------------------------------------------
  // Errors
  // ---------------------------------------------------------------------------

  datatype Error =
    | DomainNotFound
    | DomainOwnerMissing
    | NotDomainOwner
    | IdentityNotFound
    | PrincipalDisabled
    | BindingConflict
    | InvalidInput(detail: string)
    | IdempotencyConflict
    | CommandStillProcessing
    | InternalConsistency(detail: string)
    | StorageError(detail: string)

  function Label(e: Error): string {
    match e
    case DomainNotFound => "domain_not_found"
    case DomainOwnerMissing => "domain_owner_missing"
    case NotDomainOwner => "not_domain_owner"
    case IdentityNotFound => "identity_not_found"
    case PrincipalDisabled => "principal_disabled"
    case BindingConflict => "binding_conflict"
    case InvalidInput(_) => "invalid_input"
    case IdempotencyConflict => "idempotency_conflict"
    case CommandStillProcessing => "command_still_processing"
    case InternalConsistency(_) => "internal_consistency_error"
    case StorageError(_) => "service_unavailable"
  }

  function StatusCode(e: Error): int {
    match e
    case DomainNotFound | DomainOwnerMissing | IdentityNotFound => 404
    case NotDomainOwner | PrincipalDisabled => 403
    case BindingConflict | IdempotencyConflict => 409
    case InvalidInput(_) => 422
    case CommandStillProcessing => 425
    case InternalConsistency(_) => 500
    case StorageError(_) => 503
  }

  /** What a caller can tell from a status: not allowed, not found, in conflict, in progress, badly
      formed, or not its fault. */
  lemma StatusTells(e: Error)
    ensures StatusCode(e) == 403 <==> e.NotDomainOwner? || e.PrincipalDisabled?
    ensures StatusCode(e) == 404 <==> e.DomainNotFound? || e.DomainOwnerMissing? || e.IdentityNotFound?
    ensures StatusCode(e) == 409 <==> e.BindingConflict? || e.IdempotencyConflict?
    ensures StatusCode(e) == 425 <==> e.CommandStillProcessing?
    ensures StatusCode(e) == 422 <==> e.InvalidInput?
    ensures StatusCode(e) == 500 <==> e.InternalConsistency?
    ensures StatusCode(e) == 503 <==> e.StorageError?
  {
  }

  const SEE_ORIGINAL := "see original response"
  const UNKNOWN_ERROR := "completed receipt contains an unknown error"

  function ErrorFromBody(body: Body): Error {
    if !body.ErrorBody? then InternalConsistency(UNKNOWN_ERROR)
    else if body.code == "domain_not_found" then DomainNotFound
    else if body.code == "domain_owner_missing" then DomainOwnerMissing
    else if body.code == "not_domain_owner" then NotDomainOwner
    else if body.code == "identity_not_found" then IdentityNotFound
    else if body.code == "principal_disabled" then PrincipalDisabled
    else if body.code == "binding_conflict" then BindingConflict
    else if body.code == "invalid_input" then InvalidInput(SEE_ORIGINAL)
    else if body.code == "idempotency_conflict" then IdempotencyConflict
    else if body.code == "command_still_processing" then CommandStillProcessing
    else InternalConsistency(UNKNOWN_ERROR)
  }

  predicate WithoutDetail(e: Error) {
    !e.StorageError? && (e.InvalidInput? ==> e.detail == SEE_ORIGINAL) && (e.InternalConsistency? ==> e.detail == UNKNOWN_ERROR)
  }

  /** A stored error comes back as itself exactly if it carries no detail of its own. */
  lemma StoredErrorRoundTrip(e: Error)
    ensures ErrorFromBody(ErrorBody(Label(e))) == e <==> WithoutDetail(e)
    ensures StatusCode(e) != 200
  {
    assert |"domain_not_found"| == 16 && |"domain_owner_missing"| == 20 && |"not_domain_owner"| == 16 && |"identity_not_found"| == 18;
    assert |"principal_disabled"| == 18 && |"binding_conflict"| == 16 && |"invalid_input"| == 13 && |"idempotency_conflict"| == 20;
    assert |"command_still_processing"| == 24 && |"internal_consistency_error"| == 26 && |"service_unavailable"| == 19;
    assert "domain_not_found"[0] == 'd' && "not_domain_owner"[0] == 'n' && "binding_conflict"[0] == 'b';
    assert "domain_owner_missing"[0] == 'd' && "idempotency_conflict"[0] == 'i' && "identity_not_found"[0] == 'i' && "principal_disabled"[0] == 'p';
  }

  // ---------------------------------------------------------------------------
  // State
  // ---------------------------------------------------------------------------

  datatype Domain = Domain(display: string, enabled: bool)

  /** The hashed request document of each command; hashes are injective. */
  datatype Request =
    | UpdateRequest(domain: Uuid, display: string)
    | ReconcileRequest(domain: Uuid, role: string, source: Uuid, target: Uuid, reason: string)
    | ForeignRequest(text: string)

  datatype Outcome = Applied | Noop | AlreadyApplied

  datatype Body =
    | ErrorBody(code: string)
    | OutcomeBody(domain: Uuid, role: string, source: Uuid, target: Uuid, outcome: Outcome)
    | EntryBody(domain: Uuid, entry: Domain)
    | ForeignBody(text: string)

  datatype Response = Response(status: int, body: Body)

  /** A receipt without response is PROCESSING. */
  datatype Receipt = Receipt(request: Request, response: Option<Response>)
  datatype ReceiptId = ReceiptId(actor: Uuid, key: string)
  datatype Audit = Audit(actor: Uuid, domain: Uuid, result: Body)

  datatype State = State(
    principals: map<Uuid, bool>,
    coordinators: set<Uuid>,
    domains: map<Uuid, Domain>,
    bindings: Bindings.Table,
    receipts: map<ReceiptId, Receipt>,
    audits: seq<Audit>,
    replays: seq<ReceiptId>)

  ghost predicate Sound(s: State) {
    && Bindings.SingleOwner(s.bindings) && Bindings.DistinctIds(s.bindings)
    && forall k :: k in s.bindings ==> k.principal in s.principals
  }

  predicate Coordinates(s: State, actor: Uuid) {
    actor in s.coordinators && actor in s.principals && s.principals[actor]
  }

  datatype Reply = Ok(body: Body) | Err(error: Error)

  // ---------------------------------------------------------------------------
  // Input validation
  // ---------------------------------------------------------------------------

  function Utf8Length(s: string): nat {
    if s == [] then 0
    else (var n := s[0] as int; if n < 0x80 then 1 else if n < 0x800 then 2 else if n < 0x10000 then 3 else 4) + Utf8Length(s[1..])
  }

  /** The bytes of a character and of a text, section 3 of RFC 3629. */
  ghost function Bytes(c: char): seq<int> {
    var n := c as int;
    if n <= 0x7F then [n]
    else if n <= 0x7FF then [0xC0 + n / 0x40, 0x80 + n % 0x40]
    else if n <= 0xFFFF then [0xE0 + n / 0x1000, 0x80 + n / 0x40 % 0x40, 0x80 + n % 0x40]
    else [0xF0 + n / 0x40000, 0x80 + n / 0x1000 % 0x40, 0x80 + n / 0x40 % 0x40, 0x80 + n % 0x40]
  }

  ghost function Encoded(s: string): seq<int> {
    if s == [] then [] else Bytes(s[0]) + Encoded(s[1..])
  }

  /** The length limits are on the bytes of the text. */
  lemma {:induction false} LengthIsOfBytes(s: string)
    ensures Utf8Length(s) == |Encoded(s)|
  {
    if s != [] {
      LengthIsOfBytes(s[1..]);
    }
  }

  ghost function Decoded(b: seq<int>): int
    requires 1 <= |b| <= 4
  {
    match |b|
    case 1 => b[0]
    case 2 => (b[0] - 0xC0) * 0x40 + (b[1] - 0x80)
    case 3 => (b[0] - 0xE0) * 0x1000 + (b[1] - 0x80) * 0x40 + (b[2] - 0x80)
    case _ => (b[0] - 0xF0) * 0x40000 + (b[1] - 0x80) * 0x1000 + (b[2] - 0x80) * 0x40 + (b[3] - 0x80)
  }

  /** Each byte fits its eight bits, and the bytes determine the character. */
  lemma BytesDecode(c: char)
    ensures 1 <= |Bytes(c)| <= 4 && Decoded(Bytes(c)) == c as int && forall k :: 0 <= k < |Bytes(c)| ==> 0 <= Bytes(c)[k] < 0x100
  {
    var n := c as int;
    assert n < 0x110000;
    assert n / 0x40 / 0x40 == n / 0x1000 && n / 0x1000 / 0x40 == n / 0x40000;
  }

  predicate HasControl(s: string) {
    exists k :: 0 <= k < |s| && var n := s[k] as int; n < 0x20 || 0x7F <= n <= 0x9F
  }

  predicate ReasonValid(reason: string) {
    reason != "" && Utf8Length(reason) <= 512 && !HasControl(reason)
  }

  predicate ReconcileValid(q: Request) {
    q.ReconcileRequest? && (q.role == DOMAIN_OWNER || q.role == DOMAIN_MEMBER) && ReasonValid(q.reason)
  }

  // ---------------------------------------------------------------------------
  // Receipts
  // ---------------------------------------------------------------------------

  datatype Acquired = Owned | Replay(response: Response) | Conflict | Processing

  /** INSERT ... ON CONFLICT DO NOTHING, then the existing row's hash and status. */
  function Acquire(s: State, id: ReceiptId, q: Request): Acquired {
    if id !in s.receipts then Owned
    else if s.receipts[id].request != q then Conflict
    else if s.receipts[id].response.None? then Processing
    else Replay(s.receipts[id].response.value)
  }

  function HandleReceiptResult(a: Acquired): Reply
    requires !a.Owned?
  {
    match a
    case Replay(r) => if r.status == 200 then Ok(r.body) else Err(ErrorFromBody(r.body))
    case Conflict => Err(IdempotencyConflict)
    case Processing => Err(CommandStillProcessing)
  }

  function Completed(s: State, id: ReceiptId, q: Request, r: Response): State {
    s.(receipts := s.receipts[id := Receipt(q, Some(r))])
  }

  class GovernanceDatabase {
    var state: State

    constructor (start: State)
      ensures state == start
    {
      state := start;
    }

    method Commit(tx: State, ack: CommitAck) returns (ok: bool)
      modifies this
      ensures ok <==> ack.Acked?
      ensures state == if ack.LostNotApplied? then old(state) else tx
    {
      if !ack.LostNotApplied? {
        state := tx;
      }
      ok := ack.Acked?;
    }
  }

  const LOST := StorageError("commit acknowledgement lost")

  /** The fates of the commits of one call.  Only a replay commits twice: it closes the
      transaction, then records the attempt in a transaction of its own. */
  datatype Acks = Acks(first: CommitAck, second: CommitAck)

  const ACKED := Acks(Acked, Acked)

  /** The path of a receipt that is not owned: close the transaction, record a replay, answer. */
  function NotOwnedState(s: State, id: ReceiptId, q: Request, ack: Acks): State {
    if Acquire(s, id, q).Replay? && ack.first.Acked? && !ack.second.LostNotApplied? then s.(replays := s.replays + [id]) else s
  }

  function NotOwnedReply(s: State, id: ReceiptId, q: Request, ack: Acks): Reply
    requires !Acquire(s, id, q).Owned?
  {
    if ack.first.Acked? && (Acquire(s, id, q).Replay? ==> ack.second.Acked?) then HandleReceiptResult(Acquire(s, id, q)) else Err(LOST)
  }

  method AnswerNotOwned(db: GovernanceDatabase, id: ReceiptId, q: Request, ack: Acks) returns (r: Reply)
    requires !Acquire(db.state, id, q).Owned?
    modifies db
    ensures db.state == NotOwnedState(old(db.state), id, q, ack) && r == NotOwnedReply(old(db.state), id, q, ack)
    ensures r.Ok? || r != Err(LOST) ==> (Acquire(old(db.state), id, q).Replay? <==> db.state.replays == old(db.state.replays) + [id])
  {
    var acquired := Acquire(db.state, id, q);
    var closed := db.Commit(db.state, ack.first);
    if !closed {
      return Err(LOST);
    }
    if acquired.Replay? {
      var recorded := db.Commit(db.state.(replays := db.state.replays + [id]), ack.second);
      if !recorded {
        return Err(LOST);
      }
    }
    return HandleReceiptResult(acquired);
  }

  /** fail_receipt: the error becomes the answer of this key and nothing else changes.  If the
      commit took effect the same request is answered by the same error from then on, exactly if
      the error carries no detail of its own, and any other request under the key conflicts. */
  method FailReceipt(db: GovernanceDatabase, id: ReceiptId, q: Request, e: Error, ack: CommitAck) returns (r: Reply)
    requires id !in db.state.receipts
    modifies db
    ensures db.state == old(db.state).(receipts := db.state.receipts)
    ensures forall i :: i != id ==> (i in db.state.receipts <==> i in old(db.state.receipts))
    ensures forall i :: i in old(db.state.receipts) ==> db.state.receipts[i] == old(db.state.receipts[i])
    ensures id in db.state.receipts <==> !ack.LostNotApplied?
    ensures id in db.state.receipts ==> HandleReceiptResult(Acquire(db.state, id, q)).Err?
    ensures id in db.state.receipts ==> (HandleReceiptResult(Acquire(db.state, id, q)) == Err(e) <==> WithoutDetail(e))
    ensures id in db.state.receipts ==> forall other :: other != q ==> Acquire(db.state, id, other).Conflict?
    ensures db.state == if ack.LostNotApplied? then old(db.state) else Completed(old(db.state), id, q, ErrorResponse(e))
    ensures r == if ack.Acked? then Err(e) else Err(LOST)
  {
    StoredErrorRoundTrip(e);
    var tx := Completed(db.state, id, q, ErrorResponse(e));
    var ok := db.Commit(tx, ack);
    return if ok then Err(e) else Err(LOST);
  }

  function ErrorResponse(e: Error): Response {
    Response(StatusCode(e), ErrorBody(Label(e)))
  }

  // ---------------------------------------------------------------------------
  // What a reconciliation decides
  // ---------------------------------------------------------------------------

  /** Unwind: the transaction is dropped; Fail: the error is stored in the receipt. */
  datatype Decision = Unwind(error: Error) | Fail(error: Error) | Succeed(outcome: Outcome)

  function KeyOf(q: Request, principal: Uuid): Bindings.Key
    requires q.ReconcileRequest?
  {
    Bindings.Key(q.domain, principal, q.role)
  }

  function TargetCheck(s: State, target: Uuid): Option<Error> {
    if target !in s.principals then Some(IdentityNotFound)
    else if !s.principals[target] then Some(PrincipalDisabled)
    else None
  }

  function Decide(s: State, actor: Uuid, q: Request): Decision
    requires q.ReconcileRequest?
  {
    var from, to := KeyOf(q, q.source), KeyOf(q, q.target);
    if actor !in s.principals || !s.principals[actor] then Unwind(PrincipalDisabled)
    else if actor !in s.coordinators then Fail(NotDomainOwner)
    else if q.domain !in s.domains || !s.domains[q.domain].enabled then Fail(DomainNotFound)
    else if from !in s.bindings then Fail(if q.source in s.principals then BindingConflict else IdentityNotFound)
    else if !s.bindings[from].enabled then
      if q.source != q.target && Bindings.Enabled(s.bindings, to) then
        (match TargetCheck(s, q.target) case Some(e) => Fail(e) case None => Succeed(AlreadyApplied))
      else Fail(BindingConflict)
    else
      match TargetCheck(s, q.target)
      case Some(e) => Fail(e)
      case None =>
        if q.source == q.target then Succeed(Noop)
        else if Bindings.Enabled(s.bindings, to) then Fail(BindingConflict)
        else Succeed(Applied)
  }

  function DisabledById(b: Bindings.Table, id: Uuid): Bindings.Table {
    map k | k in b :: if b[k].id == id then b[k].(enabled := false) else b[k]
  }

  /** Disable-old and establish-new; a rejected insert aborts the transaction. */
  predicate MoveAccepted(s: State, q: Request, newId: Uuid)
    requires q.ReconcileRequest? && KeyOf(q, q.source) in s.bindings
  {
    Ledger.UpsertAccepted(DisabledById(s.bindings, s.bindings[KeyOf(q, q.source)].id), KeyOf(q, q.target), newId)
  }

  function Reconciled(s: State, q: Request, newId: Uuid): State
    requires q.ReconcileRequest? && KeyOf(q, q.source) in s.bindings
  {
    s.(bindings := Ledger.Upserted(DisabledById(s.bindings, s.bindings[KeyOf(q, q.source)].id), KeyOf(q, q.target), newId))
  }

  function OutcomeOf(q: Request, o: Outcome): Body
    requires q.ReconcileRequest?
  {
    OutcomeBody(q.domain, q.role, q.source, q.target, o)
  }

  /** A successful outcome: the moved bindings if applied, one audit, the 200 receipt. */
  function Succeeded(s: State, id: ReceiptId, q: Request, o: Outcome, newId: Uuid): State
    requires q.ReconcileRequest? && (o.Applied? ==> KeyOf(q, q.source) in s.bindings)
  {
    var moved := if o.Applied? then Reconciled(s, q, newId) else s;
    Completed(moved.(audits := moved.audits + [Audit(id.actor, q.domain, OutcomeOf(q, o))]), id, q, Response(200, OutcomeOf(q, o)))
  }

  const COLLISION := StorageError("binding insert rejected")

  function ApplyState(s: State, seen: State, id: ReceiptId, q: Request, newId: Uuid, ack: Acks): State
    requires q.ReconcileRequest?
  {
    if !Coordinates(seen, id.actor) || !ReconcileValid(q) then s
    else if !Acquire(s, id, q).Owned? then NotOwnedState(s, id, q, ack)
    else if ack.first.LostNotApplied? then s
    else
      match Decide(s, id.actor, q)
      case Unwind(_) => s
      case Fail(e) => Completed(s, id, q, ErrorResponse(e))
      case Succeed(o) => if o.Applied? && !MoveAccepted(s, q, newId) then s else Succeeded(s, id, q, o, newId)
  }

  const INVALID := InvalidInput("role or reason is invalid")

  function ApplyReply(s: State, seen: State, id: ReceiptId, q: Request, newId: Uuid, ack: Acks): Reply
    requires q.ReconcileRequest?
  {
    if !Coordinates(seen, id.actor) then Err(NotDomainOwner)
    else if !ReconcileValid(q) then Err(INVALID)
    else if !Acquire(s, id, q).Owned? then NotOwnedReply(s, id, q, ack)
    else
      match Decide(s, id.actor, q)
      case Unwind(e) => Err(e)
      case Fail(e) => if ack.first.Acked? then Err(e) else Err(LOST)
      case Succeed(o) =>
        if o.Applied? && !MoveAccepted(s, q, newId) then Err(COLLISION)
        else if ack.first.Acked? then Ok(OutcomeOf(q, o))
        else Err(LOST)
  }

  /** Write the success audit and the 200 receipt of a prepared transaction and commit it. */
  method Finish(db: GovernanceDatabase, tx: State, id: ReceiptId, q: Request, o: Outcome,
      ack: CommitAck) returns (r: Reply)
    requires q.ReconcileRequest?
    modifies db
    ensures db.state == if ack.LostNotApplied? then old(db.state)
                        else Completed(tx.(audits := tx.audits + [Audit(id.actor, q.domain, OutcomeOf(q, o))]), id, q, Response(200, OutcomeOf(q, o)))
    ensures r == if ack.Acked? then Ok(OutcomeOf(q, o)) else Err(LOST)
  {
    var done := Completed(tx.(audits := tx.audits + [Audit(id.actor, q.domain, OutcomeOf(q, o))]), id, q, Response(200, OutcomeOf(q, o)));
    var ok := db.Commit(done, ack);
    return if ok then Ok(OutcomeOf(q, o)) else Err(LOST);
  }

  /** `seen` is the state the pool-level coordinator gate read; it may be stale. */
  method ReconcileApply(db: GovernanceDatabase, seen: State, id: ReceiptId, q: Request, newId: Uuid,
      ack: Acks) returns (r: Reply)
    requires q.ReconcileRequest?
    modifies db
    ensures db.state == ApplyState(old(db.state), seen, id, q, newId, ack)
    ensures r == ApplyReply(old(db.state), seen, id, q, newId, ack)
    ensures r.Ok? && id !in old(db.state).receipts ==> Reachable(old(db.state), id, q) && PrincipalOn(old(db.state), q.target)
  {
    hide ReasonValid, DisabledById, Ledger.UpsertAccepted, Ledger.Upserted, Label, StatusCode, ErrorFromBody;
    var actor := id.actor;
    if !Coordinates(seen, actor) {
      return Err(NotDomainOwner);
    }
    if !ReconcileValid(q) {
      return Err(INVALID);
    }
    var tx := db.state;
    if !Acquire(tx, id, q).Owned? {
      r := AnswerNotOwned(db, id, q, ack);
      return;
    }
    if actor !in tx.principals || !tx.principals[actor] {
      return Err(PrincipalDisabled);
    }
    if actor !in tx.coordinators {
      r := FailReceipt(db, id, q, NotDomainOwner, ack.first);
      return;
    }
    if q.domain !in tx.domains || !tx.domains[q.domain].enabled {
      r := FailReceipt(db, id, q, DomainNotFound, ack.first);
      return;
    }
    var from, to := KeyOf(q, q.source), KeyOf(q, q.target);
    if from !in tx.bindings {
      r := FailReceipt(db, id, q, if q.source in tx.principals then BindingConflict else IdentityNotFound, ack.first);
      return;
    }
    var bindingId, sourceEnabled := tx.bindings[from].id, tx.bindings[from].enabled;
    if !sourceEnabled {
      if q.source != q.target && Bindings.Enabled(tx.bindings, to) {
        match TargetCheck(tx, q.target) {
          case Some(e) => r := FailReceipt(db, id, q, e, ack.first);
          case None => r := Finish(db, tx, id, q, AlreadyApplied, ack.first);
        }
        return;
      }
      r := FailReceipt(db, id, q, BindingConflict, ack.first);
      return;
    }
    match TargetCheck(tx, q.target) {
      case Some(e) =>
        r := FailReceipt(db, id, q, e, ack.first);
        return;
      case None =>
    }
    if q.source == q.target {
      r := Finish(db, tx, id, q, Noop, ack.first);
      return;
    }
    if Bindings.Enabled(tx.bindings, to) {
      r := FailReceipt(db, id, q, BindingConflict, ack.first);
      return;
    }
    tx := tx.(bindings := DisabledById(tx.bindings, bindingId));
    if !Ledger.UpsertAccepted(tx.bindings, to, newId) {
      return Err(COLLISION);
    }
    tx := tx.(bindings := Ledger.Upserted(tx.bindings, to, newId));
    r := Finish(db, tx, id, q, Applied, ack.first);
  }

  // ---------------------------------------------------------------------------
  // displayName update
  // ---------------------------------------------------------------------------

  function UpdateDecision(s: State, actor: Uuid, q: Request): Option<Decision>
    requires q.UpdateRequest?
  {
    if actor !in s.principals || !s.principals[actor] then Some(Unwind(PrincipalDisabled))
    else if actor !in s.coordinators then Some(Fail(NotDomainOwner))
    else if q.domain !in s.domains then Some(Fail(DomainNotFound))
    else None
  }

  predicate DisplayNameValid(name: string, trimmed: string) {
    name != "" && name == trimmed && Utf8Length(name) <= 256 && !HasControl(name)
  }

  function Renamed(s: State, id: ReceiptId, q: Request): State
    requires q.UpdateRequest? && q.domain in s.domains
  {
    var entry := s.domains[q.domain].(display := q.display);
    Completed(s.(domains := s.domains[q.domain := entry], audits := s.audits + [Audit(id.actor, q.domain, EntryBody(q.domain, entry))]),
              id, q, Response(200, EntryBody(q.domain, entry)))
  }

  function UpdateState(s: State, seen: State, id: ReceiptId, q: Request, trimmed: string, ack: Acks): State
    requires q.UpdateRequest?
  {
    if !Coordinates(seen, id.actor) || !DisplayNameValid(q.display, trimmed) then s
    else if !Acquire(s, id, q).Owned? then NotOwnedState(s, id, q, ack)
    else if ack.first.LostNotApplied? then s
    else
      match UpdateDecision(s, id.actor, q)
      case Some(Fail(e)) => Completed(s, id, q, ErrorResponse(e))
      case Some(_) => s
      case None => Renamed(s, id, q)
  }

  function UpdateReply(s: State, seen: State, id: ReceiptId, q: Request, trimmed: string, ack: Acks): Reply
    requires q.UpdateRequest?
  {
    if !Coordinates(seen, id.actor) then Err(NotDomainOwner)
    else if !DisplayNameValid(q.display, trimmed) then Err(InvalidInput("displayName is invalid"))
    else if !Acquire(s, id, q).Owned? then NotOwnedReply(s, id, q, ack)
    else
      match UpdateDecision(s, id.actor, q)
      case Some(Unwind(e)) => Err(e)
      case Some(Fail(e)) => if ack.first.Acked? then Err(e) else Err(LOST)
      case Some(Succeed(_)) => Err(LOST)
      case None => if ack.first.Acked? then Ok(EntryBody(q.domain, s.domains[q.domain].(display := q.display))) else Err(LOST)
  }

  /** `trimmed` is the display name without leading and trailing white space. */
  method UpdateDomain(db: GovernanceDatabase, seen: State, id: ReceiptId, q: Request, trimmed: string,
      ack: Acks) returns (r: Reply)
    requires q.UpdateRequest?
    modifies db
    ensures db.state == UpdateState(old(db.state), seen, id, q, trimmed, ack)
    ensures r == UpdateReply(old(db.state), seen, id, q, trimmed, ack)
  {
    hide Label, StatusCode, ErrorFromBody;
    if !Coordinates(seen, id.actor) {
      return Err(NotDomainOwner);
    }
    if !DisplayNameValid(q.display, trimmed) {
      return Err(InvalidInput("displayName is invalid"));
    }
    var tx := db.state;
    if !Acquire(tx, id, q).Owned? {
      r := AnswerNotOwned(db, id, q, ack);
      return;
    }
    if id.actor !in tx.principals || !tx.principals[id.actor] {
      return Err(PrincipalDisabled);
    }
    if id.actor !in tx.coordinators {
      r := FailReceipt(db, id, q, NotDomainOwner, ack.first);
      return;
    }
    if q.domain !in tx.domains {
      r := FailReceipt(db, id, q, DomainNotFound, ack.first);
      return;
    }
    var entry := tx.domains[q.domain].(display := q.display);
    tx := tx.(domains := tx.domains[q.domain := entry]);
    tx := tx.(audits := tx.audits + [Audit(id.actor, q.domain, EntryBody(q.domain, entry))]);
    tx := Completed(tx, id, q, Response(200, EntryBody(q.domain, entry)));
    var ok := db.Commit(tx, ack.first);
    return if ok then Ok(EntryBody(q.domain, entry)) else Err(LOST);
  }

  /** A successful update changes the display name of its domain and nothing else that is
      governed; the reply and the receipt show the row as it now stands. */
  lemma UpdateShowsState(s: State, seen: State, id: ReceiptId, q: Request, trimmed: string)
    requires q.UpdateRequest? && id !in s.receipts && UpdateReply(s, seen, id, q, trimmed, ACKED).Ok?
    ensures var u := UpdateState(s, seen, id, q, trimmed, ACKED);
            && q.domain in s.domains && q.domain in u.domains
            && u.domains[q.domain].display == q.display && u.domains[q.domain].enabled == s.domains[q.domain].enabled
            && (forall d :: d != q.domain ==> (d in u.domains <==> d in s.domains) && (d in s.domains ==> u.domains[d] == s.domains[d]))
            && u.bindings == s.bindings && u.principals == s.principals && u.coordinators == s.coordinators
            && UpdateReply(s, seen, id, q, trimmed, ACKED) == Ok(EntryBody(q.domain, u.domains[q.domain]))
            && u.receipts[id].response == Some(Response(200, EntryBody(q.domain, u.domains[q.domain])))
            && u.audits == s.audits + [Audit(id.actor, q.domain, EntryBody(q.domain, u.domains[q.domain]))]
  {
    hide DisplayNameValid, Label, StatusCode;
  }

  // ---------------------------------------------------------------------------
  // The read-only plan
  // ---------------------------------------------------------------------------

  datatype Blocker =
    | SourcePrincipalNotFound
    | SourceBindingMissing
    | SourceBindingDisabled
    | TargetPrincipalNotFound
    | TargetPrincipalDisabled
    | SingleOwnerConflict
    | TargetAlreadyBound

  /** What each blocker says about the state. */
  predicate Blocks(s: State, q: Request, b: Blocker)
    requires q.ReconcileRequest?
  {
    var from := KeyOf(q, q.source);
    match b
    case SourcePrincipalNotFound => q.source !in s.principals
    case SourceBindingMissing => from !in s.bindings
    case SourceBindingDisabled => from in s.bindings && !s.bindings[from].enabled
    case TargetPrincipalNotFound => q.target !in s.principals
    case TargetPrincipalDisabled => q.target in s.principals && !s.principals[q.target]
    case SingleOwnerConflict => q.role == DOMAIN_OWNER && q.source != q.target && Bindings.Enabled(s.bindings, KeyOf(q, q.target))
    case TargetAlreadyBound => q.role != DOMAIN_OWNER && q.source != q.target && Bindings.Enabled(s.bindings, KeyOf(q, q.target))
  }

  /** The place of a blocker in every list of them. */
  function Place(b: Blocker): nat {
    match b
    case SourcePrincipalNotFound => 0
    case SourceBindingMissing => 1
    case SourceBindingDisabled => 2
    case TargetPrincipalNotFound => 3
    case TargetPrincipalDisabled => 4
    case SingleOwnerConflict => 5
    case TargetAlreadyBound => 6
  }

  /** The list names every blocker before place `n` that holds, once, and nothing else, in order. */
  ghost predicate ListsBelow(s: State, q: Request, blockers: seq<Blocker>, n: nat)
    requires q.ReconcileRequest?
  {
    && (forall b :: b in blockers <==> Blocks(s, q, b) && Place(b) < n)
    && (forall j, k :: 0 <= j < k < |blockers| ==> Place(blockers[j]) < Place(blockers[k]))
  }

  ghost predicate Lists(s: State, q: Request, blockers: seq<Blocker>)
    requires q.ReconcileRequest?
  {
    ListsBelow(s, q, blockers, 7)
  }

  lemma Considered(s: State, q: Request, blockers: seq<Blocker>, b: Blocker)
    requires q.ReconcileRequest? && ListsBelow(s, q, blockers, Place(b))
    ensures ListsBelow(s, q, if Blocks(s, q, b) then blockers + [b] else blockers, Place(b) + 1)
  {
    hide Blocks;
  }

  method PlanBlockers(s: State, q: Request) returns (blockers: seq<Blocker>)
    requires q.ReconcileRequest?
    ensures Lists(s, q, blockers)
  {
    hide Bindings.Enabled, KeyOf, ListsBelow;
    blockers := [];
    NothingBelow(s, q);
    var from, to := KeyOf(q, q.source), KeyOf(q, q.target);
    Considered(s, q, blockers, SourcePrincipalNotFound);
    if q.source !in s.principals {
      blockers := blockers + [SourcePrincipalNotFound];
    }
    Considered(s, q, blockers, SourceBindingMissing);
    if from !in s.bindings {
      blockers := blockers + [SourceBindingMissing];
      Considered(s, q, blockers, SourceBindingDisabled);
    } else {
      Considered(s, q, blockers, SourceBindingDisabled);
      if !s.bindings[from].enabled {
        blockers := blockers + [SourceBindingDisabled];
      }
    }
    Considered(s, q, blockers, TargetPrincipalNotFound);
    if q.target !in s.principals {
      blockers := blockers + [TargetPrincipalNotFound];
      Considered(s, q, blockers, TargetPrincipalDisabled);
    } else {
      Considered(s, q, blockers, TargetPrincipalDisabled);
      if !s.principals[q.target] {
        blockers := blockers + [TargetPrincipalDisabled];
      }
    }
    Considered(s, q, blockers, SingleOwnerConflict);
    if q.role == DOMAIN_OWNER && Bindings.Enabled(s.bindings, to) && q.source != q.target {
      blockers := blockers + [SingleOwnerConflict];
      Considered(s, q, blockers, TargetAlreadyBound);
    } else {
      Considered(s, q, blockers, TargetAlreadyBound);
      if Bindings.Enabled(s.bindings, to) && q.source != q.target {
        blockers := blockers + [TargetAlreadyBound];
      }
    }
  }

  lemma NothingBelow(s: State, q: Request)
    requires q.ReconcileRequest?
    ensures ListsBelow(s, q, [], 0)
  {
  }

  /** One state has one such list. */
  lemma ListsOnce(s: State, q: Request, a: seq<Blocker>, b: seq<Blocker>)
    requires q.ReconcileRequest? && Lists(s, q, a) && Lists(s, q, b)
    ensures a == b
  {
    SameMembersSameList(a, b);
  }

  lemma {:induction false} SameMembersSameList(a: seq<Blocker>, b: seq<Blocker>)
    requires forall x :: x in a <==> x in b
    requires forall j, k :: 0 <= j < k < |a| ==> Place(a[j]) < Place(a[k])
    requires forall j, k :: 0 <= j < k < |b| ==> Place(b[j]) < Place(b[k])
    ensures a == b
  {
    hide Place;
    assert a != [] ==> a[0] in b;
    assert b != [] ==> b[0] in a;
    if a != [] {
      assert a[0] == b[0];
      forall x ensures x in a[1..] <==> x in b[1..] {
        assert x in a <==> x in b;
      }
      SameMembersSameList(a[1..], b[1..]);
    }
  }

  const ALL_BLOCKERS := [SourcePrincipalNotFound, SourceBindingMissing, SourceBindingDisabled, TargetPrincipalNotFound,
                         TargetPrincipalDisabled, SingleOwnerConflict, TargetAlreadyBound]

  /** The blockers before place `n` that hold. */
  function BlockersBelow(s: State, q: Request, n: nat): (blockers: seq<Blocker>)
    requires q.ReconcileRequest? && n <= 7
    ensures ListsBelow(s, q, blockers, n)
  {
    if n == 0 then []
    else
      var before, b := BlockersBelow(s, q, n - 1), ALL_BLOCKERS[n - 1];
      assert Place(b) == n - 1;
      Considered(s, q, before, b);
      if Blocks(s, q, b) then before + [b] else before
  }

  function Blockers(s: State, q: Request): (blockers: seq<Blocker>)
    requires q.ReconcileRequest?
    ensures Lists(s, q, blockers)
  {
    BlockersBelow(s, q, 7)
  }

  /** None: the plan itself is refused. */
  function Plan(s: State, actor: Uuid, q: Request): Option<seq<Blocker>>
    requires q.ReconcileRequest?
  {
    if !Coordinates(s, actor) || !ReconcileValid(q) || q.domain !in s.domains then None else Some(Blockers(s, q))
  }

  // ---------------------------------------------------------------------------
  // Planner and executor
  // ---------------------------------------------------------------------------

  predicate WouldMigrate(s: State, actor: Uuid, q: Request)
    requires q.ReconcileRequest?
  {
    Decide(s, actor, q) == Succeed(Applied) || Decide(s, actor, q) == Succeed(Noop)
  }

  /** On one snapshot the plan is free of blockers and the domain is enabled exactly when the
      apply would migrate (or find nothing to migrate). */
  lemma PlanAgrees(s: State, actor: Uuid, q: Request)
    requires Sound(s) && Coordinates(s, actor) && ReconcileValid(q) && q.domain in s.domains
    ensures WouldMigrate(s, actor, q) <==> Plan(s, actor, q) == Some([]) && s.domains[q.domain].enabled
  {
    var from, blockers := KeyOf(q, q.source), Blockers(s, q);
    assert from in s.bindings ==> q.source in s.principals;
    assert forall b :: Blocks(s, q, b) ==> b in blockers;
    if blockers == [] {
      assert !Blocks(s, q, SourceBindingMissing) && !Blocks(s, q, SourceBindingDisabled) && !Blocks(s, q, TargetPrincipalNotFound);
      assert !Blocks(s, q, TargetPrincipalDisabled) && !Blocks(s, q, SingleOwnerConflict) && !Blocks(s, q, TargetAlreadyBound);
    } else {
      assert Blocks(s, q, blockers[0]);
    }
  }

  /** The plan is refused exactly for the actors and inputs an apply is refused for at once, and for
      an unknown domain; otherwise it lists what blocks. */
  lemma PlanRefusedExactly(s: State, actor: Uuid, q: Request)
    requires q.ReconcileRequest?
    ensures Plan(s, actor, q).None?
       <==> || actor !in s.coordinators || actor !in s.principals || !s.principals[actor] || q.domain !in s.domains
            || (q.role != "DOMAIN_OWNER" && q.role != "DOMAIN_MEMBER") || q.reason == "" || Utf8Length(q.reason) > 512
            || exists c :: c in q.reason && !(0x20 <= c as int < 0x7F || 0x9F < c as int)
    ensures Plan(s, actor, q).Some? ==> Lists(s, q, Plan(s, actor, q).value)
  {
    hide Utf8Length;
    ValidReason(q);
  }

  /** The plan does not look at the domain's enabled flag: for a disabled domain it can be free
      of blockers although every apply fails with domain_not_found. */
  lemma DisabledDomainPlansButFails(s: State, actor: Uuid, q: Request)
    requires Coordinates(s, actor) && ReconcileValid(q) && q.domain in s.domains && !s.domains[q.domain].enabled
    ensures Decide(s, actor, q) == Fail(DomainNotFound)
    ensures forall on :: Plan(s.(domains := s.domains[q.domain := s.domains[q.domain].(enabled := on)]), actor, q) == Plan(s, actor, q)
  {
    forall on ensures Plan(s.(domains := s.domains[q.domain := s.domains[q.domain].(enabled := on)]), actor, q) == Plan(s, actor, q) {
      var u := s.(domains := s.domains[q.domain := s.domains[q.domain].(enabled := on)]);
      assert forall b :: Blocks(u, q, b) == Blocks(s, q, b);
      ListsOnce(s, q, Blockers(u, q), Blockers(s, q));
    }
  }

  // ---------------------------------------------------------------------------
  // Every answer in terms of the tables
  // ---------------------------------------------------------------------------

  ghost predicate BindingOn(s: State, domain: Uuid, principal: Uuid, role: string) {
    var k := Bindings.Key(domain, principal, role);
    k in s.bindings && s.bindings[k].enabled
  }

  ghost predicate BindingOff(s: State, domain: Uuid, principal: Uuid, role: string) {
    var k := Bindings.Key(domain, principal, role);
    k in s.bindings && !s.bindings[k].enabled
  }

  ghost predicate PrincipalOn(s: State, principal: Uuid) {
    principal in s.principals && s.principals[principal]
  }

  ghost predicate PrincipalOff(s: State, principal: Uuid) {
    principal in s.principals && !s.principals[principal]
  }

  /** What a reconciliation that reaches its transaction answers, read off the tables it finds. */
  ghost predicate Reachable(s: State, id: ReceiptId, q: Request)
    requires q.ReconcileRequest?
  {
    PrincipalOn(s, id.actor) && id.actor in s.coordinators && q.domain in s.domains && s.domains[q.domain].enabled
  }

  /** The key is the caller's own, and the checks before the transaction pass. */
  ghost predicate Admissible(s: State, seen: State, id: ReceiptId, q: Request)
    requires q.ReconcileRequest?
  {
    && id !in s.receipts && PrincipalOn(seen, id.actor) && id.actor in seen.coordinators
    && (q.role == "DOMAIN_OWNER" || q.role == "DOMAIN_MEMBER") && q.reason != "" && Utf8Length(q.reason) <= 512
    && forall c :: c in q.reason ==> 0x20 <= c as int < 0x7F || 0x9F < c as int
  }

  /** The three outcomes, each for exactly the tables it belongs to: whatever the outcome, the
      actor is an enabled coordinator, the domain is enabled, and so is the target principal. */
  lemma OutcomesExactly(s: State, seen: State, id: ReceiptId, q: Request, newId: Uuid)
    requires q.ReconcileRequest? && Admissible(s, seen, id, q) && Sound(s)
    ensures var r := ApplyReply(s, seen, id, q, newId, ACKED);
            var found := Reachable(s, id, q) && PrincipalOn(s, q.target);
            var fromOn, fromOff := BindingOn(s, q.domain, q.source, q.role), BindingOff(s, q.domain, q.source, q.role);
            var toOn := BindingOn(s, q.domain, q.target, q.role);
            && (r == Ok(OutcomeBody(q.domain, q.role, q.source, q.target, Noop)) <==> found && fromOn && q.source == q.target)
            && (r == Ok(OutcomeBody(q.domain, q.role, q.source, q.target, AlreadyApplied)) <==> found && fromOff && toOn && q.source != q.target)
            && (r == Ok(OutcomeBody(q.domain, q.role, q.source, q.target, Applied))
                <==> found && fromOn && !toOn && q.source != q.target
                     && (BindingOff(s, q.domain, q.target, q.role) || forall k :: k in s.bindings ==> s.bindings[k].id != newId))
            && (r.Ok? ==> exists o :: r == Ok(OutcomeBody(q.domain, q.role, q.source, q.target, o)))
  {
    hide Utf8Length, MoveAccepted;
    ValidReason(q);
    if Decide(s, id.actor, q) == Succeed(Applied) {
      MoveIsTheMove(s, id.actor, q, newId);
    }
  }

  /** The five errors, each for exactly the tables it belongs to. */
  lemma ErrorsExactly(s: State, seen: State, id: ReceiptId, q: Request, newId: Uuid)
    requires q.ReconcileRequest? && Admissible(s, seen, id, q) && Sound(s)
    ensures var r := ApplyReply(s, seen, id, q, newId, ACKED);
            var found := Reachable(s, id, q);
            var fromOn, fromOff := BindingOn(s, q.domain, q.source, q.role), BindingOff(s, q.domain, q.source, q.role);
            var toOn := BindingOn(s, q.domain, q.target, q.role);
            var targetMatters := fromOn || (fromOff && toOn && q.source != q.target);
            && (r == Err(NotDomainOwner) <==> PrincipalOn(s, id.actor) && id.actor !in s.coordinators)
            && (r == Err(DomainNotFound) <==> PrincipalOn(s, id.actor) && id.actor in s.coordinators
                                              && (q.domain in s.domains ==> !s.domains[q.domain].enabled))
            && (r == Err(PrincipalDisabled) <==> !PrincipalOn(s, id.actor) || (found && targetMatters && PrincipalOff(s, q.target)))
            && (r == Err(IdentityNotFound) <==> found && (if fromOn || fromOff then targetMatters && q.target !in s.principals
                                                          else q.source !in s.principals))
            && (r == Err(BindingConflict) <==> found && (|| (!fromOn && !fromOff && q.source in s.principals)
                                                         || (fromOff && (q.source == q.target || !toOn))
                                                         || (fromOn && toOn && q.source != q.target && PrincipalOn(s, q.target))))
  {
    hide Utf8Length, MoveAccepted;
    ValidReason(q);
  }

  lemma ValidReason(q: Request)
    requires q.ReconcileRequest?
    ensures HasControl(q.reason) <==> exists c :: c in q.reason && !(0x20 <= c as int < 0x7F || 0x9F < c as int)
  {
    if HasControl(q.reason) {
      var k :| 0 <= k < |q.reason| && var n := q.reason[k] as int; n < 0x20 || 0x7F <= n <= 0x9F;
      assert q.reason[k] in q.reason;
    }
  }

  /** What each answer leaves behind: a success one audit and the 200 receipt that show its body,
      a stored error its label and status, any other answer nothing. */
  lemma AnswerIsRecorded(s: State, seen: State, id: ReceiptId, q: Request, newId: Uuid)
    requires q.ReconcileRequest? && id !in s.receipts
    ensures var u, r := ApplyState(s, seen, id, q, newId, ACKED), ApplyReply(s, seen, id, q, newId, ACKED);
            && (r.Ok? ==> u.audits == s.audits + [Audit(id.actor, q.domain, r.body)] && id in u.receipts
                          && u.receipts[id] == Receipt(q, Some(Response(200, r.body))))
            && (r.Err? ==> u.audits == s.audits && u.bindings == s.bindings && u.domains == s.domains)
            && (r.Err? && id in u.receipts ==>
                  u == s.(receipts := u.receipts) && u.receipts[id].request == q
                  && u.receipts[id].response == match r.error
                                                case NotDomainOwner => Some(Response(403, ErrorBody("not_domain_owner")))
                                                case PrincipalDisabled => Some(Response(403, ErrorBody("principal_disabled")))
                                                case DomainNotFound => Some(Response(404, ErrorBody("domain_not_found")))
                                                case IdentityNotFound => Some(Response(404, ErrorBody("identity_not_found")))
                                                case BindingConflict => Some(Response(409, ErrorBody("binding_conflict")))
                                                case _ => None)
            && (r.Err? && id !in u.receipts ==> u == s)
            && u.principals == s.principals && u.coordinators == s.coordinators && u.replays == s.replays
            && (id in u.receipts <==> Coordinates(seen, id.actor) && ReconcileValid(q) && PrincipalOn(s, id.actor) && r != Err(COLLISION))
  {
    hide ReconcileValid, MoveAccepted, DisabledById, Ledger.Upserted;
  }

  /** The checks before the transaction: an actor who is no enabled coordinator, or an input out of
      bounds, is refused and nothing is written, not even a receipt. */
  lemma RefusedEarly(s: State, seen: State, id: ReceiptId, q: Request, newId: Uuid, ack: Acks)
    requires q.ReconcileRequest? && id !in s.receipts && !Admissible(s, seen, id, q)
    ensures ApplyState(s, seen, id, q, newId, ack) == s
    ensures ApplyReply(s, seen, id, q, newId, ack)
         == Err(if PrincipalOn(seen, id.actor) && id.actor in seen.coordinators then InvalidInput("role or reason is invalid") else NotDomainOwner)
  {
    hide Utf8Length;
    ValidReason(q);
  }

  /** The displayName update: each answer for exactly the tables it belongs to. */
  lemma UpdateExactly(s: State, seen: State, id: ReceiptId, q: Request, trimmed: string)
    requires q.UpdateRequest? && id !in s.receipts && PrincipalOn(seen, id.actor) && id.actor in seen.coordinators
    ensures var r := UpdateReply(s, seen, id, q, trimmed, ACKED);
            var valid := q.display != "" && q.display == trimmed && Utf8Length(q.display) <= 256
                         && forall c :: c in q.display ==> 0x20 <= c as int < 0x7F || 0x9F < c as int;
            && (r == Err(InvalidInput("displayName is invalid")) <==> !valid)
            && (r == Err(PrincipalDisabled) <==> valid && !PrincipalOn(s, id.actor))
            && (r == Err(NotDomainOwner) <==> valid && PrincipalOn(s, id.actor) && id.actor !in s.coordinators)
            && (r == Err(DomainNotFound) <==> valid && PrincipalOn(s, id.actor) && id.actor in s.coordinators && q.domain !in s.domains)
            && (r.Ok? <==> valid && PrincipalOn(s, id.actor) && id.actor in s.coordinators && q.domain in s.domains)
            && (id in UpdateState(s, seen, id, q, trimmed, ACKED).receipts <==> valid && PrincipalOn(s, id.actor))
  {
    hide Utf8Length, Label, StatusCode;
    forall c | c in q.display ensures (0x20 <= c as int < 0x7F || 0x9F < c as int) || HasControl(q.display) {
      var k :| 0 <= k < |q.display| && q.display[k] == c;
    }
    if HasControl(q.display) {
      var k :| 0 <= k < |q.display| && var n := q.display[k] as int; n < 0x20 || 0x7F <= n <= 0x9F;
      assert q.display[k] in q.display;
    }
  }

  // ---------------------------------------------------------------------------
  // Bindings under reconciliation
  // ---------------------------------------------------------------------------

  /** Disabling by id hits exactly the source row, and the single-owner index never rejects the
      insert: only a collision of the fresh binding id can. */
  lemma MoveIsTheMove(s: State, actor: Uuid, q: Request, newId: Uuid)
    requires Sound(s) && q.ReconcileRequest? && Decide(s, actor, q) == Succeed(Applied)
    ensures var from, to := KeyOf(q, q.source), KeyOf(q, q.target);
            && from in s.bindings && from != to && !Bindings.Enabled(s.bindings, to)
            && (MoveAccepted(s, q, newId) <==> to in s.bindings || forall k :: k in s.bindings ==> s.bindings[k].id != newId)
            && Reconciled(s, q, newId) == s.(bindings := Bindings.Move(s.bindings, from, to, newId))
  {
    var from, to := KeyOf(q, q.source), KeyOf(q, q.target);
    var b := s.bindings;
    var d := DisabledById(b, b[from].id);
    assert from != to;
    assert d == b[from := b[from].(enabled := false)];
    assert forall k :: k in d <==> k in b;
    assert forall k :: k in b ==> d[k].id == b[k].id;
    if q.role == DOMAIN_OWNER {
      assert Bindings.Enabled(b, from);
      assert forall j :: Bindings.Enabled(b, j) && j.domain == q.domain && j.role == q.role ==> j == from;
    }
  }

  /** The call commits an `applied` outcome. */
  predicate Migrates(s: State, seen: State, id: ReceiptId, q: Request, newId: Uuid, ack: Acks)
    requires q.ReconcileRequest?
  {
    && Coordinates(seen, id.actor) && ReconcileValid(q) && id !in s.receipts && !ack.first.LostNotApplied?
    && Decide(s, id.actor, q) == Succeed(Applied) && MoveAccepted(s, q, newId)
  }

  lemma ApplyBindings(s: State, seen: State, id: ReceiptId, q: Request, newId: Uuid, ack: Acks)
    requires Sound(s) && q.ReconcileRequest?
    ensures var u := ApplyState(s, seen, id, q, newId, ack);
            && u.principals == s.principals
            && (Migrates(s, seen, id, q, newId, ack) ==>
                  KeyOf(q, q.source) in s.bindings && u.bindings == Bindings.Move(s.bindings, KeyOf(q, q.source), KeyOf(q, q.target), newId))
            && (!Migrates(s, seen, id, q, newId, ack) ==> u.bindings == s.bindings)
  {
    hide ReconcileValid, MoveAccepted, Reconciled, Sound, Bindings.Move, Coordinates, Label, StatusCode;
    if Decide(s, id.actor, q) == Succeed(Applied) {
      MoveIsTheMove(s, id.actor, q, newId);
    }
  }

  /** Conservation over every call and commit fate: no reconciliation changes how many enabled
      bindings a (domain, role) has; the schema's constraints keep holding. */
  lemma ApplyConserves(s: State, seen: State, id: ReceiptId, q: Request, newId: Uuid, ack: Acks, domain: Uuid,
      role: string)
    requires Sound(s) && q.ReconcileRequest?
    ensures var u := ApplyState(s, seen, id, q, newId, ack);
            && Sound(u) && |Bindings.Holders(u.bindings, domain, role)| == |Bindings.Holders(s.bindings, domain, role)|
  {
    hide ReconcileValid, MoveAccepted, Reconciled, ApplyState, Bindings.Holders, Bindings.SingleOwner,
         Bindings.DistinctIds;
    ApplyBindings(s, seen, id, q, newId, ack);
    if Migrates(s, seen, id, q, newId, ack) {
      var from, to := KeyOf(q, q.source), KeyOf(q, q.target);
      MoveIsTheMove(s, id.actor, q, newId);
      Bindings.MoveHolders(s.bindings, from, to, newId, domain, role);
      Bindings.MoveKeepsSingleOwner(s.bindings, from, to, newId);
      Bindings.MoveKeepsDistinctIds(s.bindings, from, to, newId);
    }
  }

  /** Only a committed `applied` outcome changes a binding; then exactly the two of the tuple. */
  lemma OnlyAppliedMoves(s: State, seen: State, id: ReceiptId, q: Request, newId: Uuid, ack: Acks)
    requires Sound(s) && q.ReconcileRequest?
    ensures var u := ApplyState(s, seen, id, q, newId, ack);
            && (u.bindings != s.bindings ==>
                  && id !in s.receipts && id in u.receipts && u.receipts[id] == Receipt(q, Some(Response(200, OutcomeOf(q, Applied))))
                  && forall k :: Bindings.Enabled(u.bindings, k)
                                 <==> k == KeyOf(q, q.target) || (k != KeyOf(q, q.source) && Bindings.Enabled(s.bindings, k)))
  {
    hide ReasonValid, MoveAccepted, Reconciled;
    if Decide(s, id.actor, q) == Succeed(Applied) && MoveAccepted(s, q, newId) {
      MoveIsTheMove(s, id.actor, q, newId);
      forall k {
        Bindings.MoveEnabled(s.bindings, KeyOf(q, q.source), KeyOf(q, q.target), newId, k);
      }
    }
  }

  /** The same tuple under a fresh key, with nothing else changed, is already applied. */
  lemma RerunIsAlreadyApplied(s: State, seen: State, id: ReceiptId, q: Request, newId: Uuid, again: ReceiptId,
      other: Uuid)
    requires Sound(s) && q.ReconcileRequest? && id.actor == again.actor && Coordinates(seen, id.actor)
    requires ApplyReply(s, seen, id, q, newId, ACKED) == Ok(OutcomeOf(q, Applied)) && id !in s.receipts
    requires again !in s.receipts && again != id
    ensures var u := ApplyState(s, seen, id, q, newId, ACKED);
            && ApplyReply(u, seen, again, q, other, ACKED) == Ok(OutcomeOf(q, AlreadyApplied))
            && ApplyState(u, seen, again, q, other, ACKED).bindings == u.bindings
  {
    hide ReasonValid, MoveAccepted, Reconciled;
    var u := ApplyState(s, seen, id, q, newId, ACKED);
    MoveIsTheMove(s, id.actor, q, newId);
    assert Decide(u, id.actor, q) == Succeed(AlreadyApplied);
  }

  // ---------------------------------------------------------------------------
  // Receipts: at most once, and faithful replay
  // ---------------------------------------------------------------------------

  /** One call of either command, with everything its environment decides. */
  datatype Call = Call(seen: State, id: ReceiptId, request: Request, newId: Uuid, trimmed: string, ack: Acks)

  predicate IsCommand(c: Call) {
    c.request.ReconcileRequest? || c.request.UpdateRequest?
  }

  function After(s: State, c: Call): State
    requires IsCommand(c)
  {
    if c.request.ReconcileRequest? then ApplyState(s, c.seen, c.id, c.request, c.newId, c.ack)
    else UpdateState(s, c.seen, c.id, c.request, c.trimmed, c.ack)
  }

  function ReplyTo(s: State, c: Call): Reply
    requires IsCommand(c)
  {
    if c.request.ReconcileRequest? then ApplyReply(s, c.seen, c.id, c.request, c.newId, c.ack)
    else UpdateReply(s, c.seen, c.id, c.request, c.trimmed, c.ack)
  }

  /** Bindings, domains and success audits: what a command may change besides receipts. */
  predicate SameBusiness(s: State, u: State) {
    s.bindings == u.bindings && s.domains == u.domains && s.audits == u.audits
  }

  ghost predicate ReceiptsKept(s: State, u: State) {
    forall id :: id in s.receipts ==> id in u.receipts && (s.receipts[id].response.Some? ==> u.receipts[id] == s.receipts[id])
  }

  /** What one call may do: any business change comes together with its own new 200 receipt; a
      stored error comes with no change; other receipts stay; nothing is left PROCESSING. */
  ghost predicate Atomic(s: State, u: State, id: ReceiptId, q: Request) {
    && (forall i :: i in s.receipts ==> i in u.receipts && u.receipts[i] == s.receipts[i])
    && (forall i :: i in u.receipts && i !in s.receipts ==> i == id && u.receipts[i].request == q && u.receipts[i].response.Some?)
    && (!SameBusiness(s, u) ==> id !in s.receipts && id in u.receipts && u.receipts[id].response.Some? && u.receipts[id].response.value.status == 200)
    && (id in u.receipts && id !in s.receipts && u.receipts[id].response.value.status != 200 ==> SameBusiness(s, u))
  }

  lemma CallIsAtomic(s: State, c: Call)
    requires IsCommand(c)
    ensures Atomic(s, After(s, c), c.id, c.request)
  {
    hide ReasonValid, DisplayNameValid, MoveAccepted, Label, DisabledById, Ledger.Upserted, Coordinates;
    if c.request.ReconcileRequest? {
      ApplyIsAtomic(s, c.seen, c.id, c.request, c.newId, c.ack);
    }
  }

  lemma FailureIsAtomic(s: State, id: ReceiptId, q: Request, e: Error)
    requires id !in s.receipts
    ensures Atomic(s, Completed(s, id, q, ErrorResponse(e)), id, q)
  {
    hide Label;
  }

  lemma SuccessIsAtomic(s: State, id: ReceiptId, q: Request, o: Outcome, newId: Uuid)
    requires q.ReconcileRequest? && id !in s.receipts && (o.Applied? ==> KeyOf(q, q.source) in s.bindings)
    ensures Atomic(s, Succeeded(s, id, q, o, newId), id, q)
  {
    hide DisabledById, Ledger.Upserted;
  }

  lemma ApplyIsAtomic(s: State, seen: State, id: ReceiptId, q: Request, newId: Uuid, ack: Acks)
    requires q.ReconcileRequest?
    ensures Atomic(s, ApplyState(s, seen, id, q, newId, ack), id, q)
  {
    hide ReconcileValid, MoveAccepted, Coordinates, Completed, Succeeded, ErrorResponse;
    if Acquire(s, id, q).Owned? {
      match Decide(s, id.actor, q)
      case Unwind(_) =>
      case Fail(e) => FailureIsAtomic(s, id, q, e);
      case Succeed(o) => SuccessIsAtomic(s, id, q, o, newId);
    }
  }

  /** Replay: past the gate, a call whose key is known never changes the business tables.  With
      the same request it returns the stored body, or exactly the error that was stored; with
      another request it is a conflict and changes nothing at all. */
  lemma KnownKeyReplays(s: State, c: Call)
    requires IsCommand(c) && Coordinates(c.seen, c.id.actor) && c.id in s.receipts
    requires if c.request.ReconcileRequest? then ReconcileValid(c.request) else DisplayNameValid(c.request.display, c.trimmed)
    ensures SameBusiness(s, After(s, c)) && After(s, c).receipts == s.receipts
    ensures s.receipts[c.id].request != c.request ==> After(s, c) == s && (c.ack.first.Acked? ==> ReplyTo(s, c) == Err(IdempotencyConflict))
    ensures var r := s.receipts[c.id];
            r.request == c.request && c.ack == ACKED ==>
              ReplyTo(s, c) == (if r.response.None? then Err(CommandStillProcessing)
                                else if r.response.value.status == 200 then Ok(r.response.value.body)
                                else Err(ErrorFromBody(r.response.value.body)))
  {
    hide ReasonValid, DisplayNameValid, Label, ErrorFromBody;
  }

  /** The two commands' own errors survive the round trip through a receipt. */
  predicate Storable(e: Error) {
    e in {NotDomainOwner, DomainNotFound, BindingConflict, IdentityNotFound, PrincipalDisabled}
  }

  lemma StoredIsReplied(s: State, c: Call)
    requires IsCommand(c) && c.id !in s.receipts && c.id in After(s, c).receipts && c.ack.first.Acked?
    ensures var r := After(s, c).receipts[c.id].response.value;
            ReplyTo(s, c) == (if r.status == 200 then Ok(r.body) else Err(ErrorFromBody(r.body)))
  {
    hide ReasonValid, DisplayNameValid, MoveAccepted, DisabledById, Ledger.Upserted, Label, StatusCode,
         ErrorFromBody, Coordinates;
    forall e | Storable(e) ensures ErrorFromBody(ErrorBody(Label(e))) == e && StatusCode(e) != 200 {
      StoredErrorRoundTrip(e);
    }
  }

  /** The first acknowledged answer under a key is every later answer to the same request, in
      whatever state, as long as receipts are kept. */
  lemma SameKeySameAnswer(s: State, first: Call, later: State, second: Call)
    requires IsCommand(first) && first.id !in s.receipts && first.id in After(s, first).receipts && first.ack.first.Acked?
    requires ReceiptsKept(After(s, first), later)
    requires second.id == first.id && second.request == first.request && second.ack == ACKED && Coordinates(second.seen, second.id.actor)
    requires if second.request.ReconcileRequest? then ReconcileValid(second.request) else DisplayNameValid(second.request.display, second.trimmed)
    ensures ReplyTo(later, second) == ReplyTo(s, first) && SameBusiness(later, After(later, second))
  {
    hide ReasonValid, DisplayNameValid, After, ReplyTo, SameBusiness, ErrorFromBody, Coordinates;
    CallIsAtomic(s, first);
    StoredIsReplied(s, first);
    KnownKeyReplays(later, second);
  }

  // ---------------------------------------------------------------------------
  // Whole runs
  // ---------------------------------------------------------------------------

  /** A history of states: each turn is a call, or anything else that keeps receipts. */
  datatype Turn = Command(call: Call) | Elsewhere

  ghost predicate Follows(s: State, u: State, turn: Turn) {
    match turn
    case Command(c) => IsCommand(c) && u == After(s, c)
    case Elsewhere => ReceiptsKept(s, u)
  }

  ghost predicate IsHistory(states: seq<State>, turns: seq<Turn>) {
    |states| == |turns| + 1 && forall k :: 0 <= k < |turns| ==> Follows(states[k], states[k + 1], turns[k])
  }

  predicate Mutates(states: seq<State>, turns: seq<Turn>, k: nat)
    requires k < |turns| && |states| == |turns| + 1
  {
    turns[k].Command? && !SameBusiness(states[k], states[k + 1])
  }

  lemma {:induction false} KeyStays(states: seq<State>, turns: seq<Turn>, i: nat, j: nat, id: ReceiptId)
    requires IsHistory(states, turns) && i <= j < |states| && id in states[i].receipts
    ensures id in states[j].receipts
    decreases j
  {
    hide After, Atomic;
    if i < j {
      KeyStays(states, turns, i, j - 1, id);
      assert Follows(states[j - 1], states[j], turns[j - 1]);
      if turns[j - 1].Command? {
        CallIsAtomic(states[j - 1], turns[j - 1].call);
        AtomicKeeps(states[j - 1], states[j], turns[j - 1].call.id, turns[j - 1].call.request, id);
      }
    }
  }

  lemma AtomicKeeps(s: State, u: State, own: ReceiptId, q: Request, id: ReceiptId)
    requires Atomic(s, u, own, q) && id in s.receipts
    ensures id in u.receipts
  {
  }

  /** At most once: over every history, with every commit fate, no two calls under one
      (actor, key) change the business tables. */
  lemma AtMostOnce(states: seq<State>, turns: seq<Turn>, i: nat, j: nat)
    requires IsHistory(states, turns) && i < j < |turns|
    requires Mutates(states, turns, i) && turns[j].Command? && turns[j].call.id == turns[i].call.id
    ensures !Mutates(states, turns, j)
  {
    hide After, SameBusiness;
    assert Follows(states[i], states[i + 1], turns[i]) && Follows(states[j], states[j + 1], turns[j]);
    CallIsAtomic(states[i], turns[i].call);
    CallIsAtomic(states[j], turns[j].call);
    KeyStays(states, turns, i + 1, j, turns[i].call.id);
  }
}
