/** Publication of a definition version: the version and its policy approval are written in a
    savepoint inside the transaction that holds the receipt. */
module Publication {
  import opened Identifiers
  import opened Store
  import opened Diagnostics
  import opened Publish

  // ---------------------------------------------------------------------------
  // Tables
  // ---------------------------------------------------------------------------

  datatype Status = DRAFT | PUBLISHED | DEPRECATED | REVOKED

  datatype VersionRow = VersionRow(status: Status, digest: Option<string>, publishedBy: Option<Uuid>)

  datatype Approval = Approval(command: Uuid, approvedBy: Uuid, policyActor: Uuid, policyDigest: string, sourceDigest: string)

  datatype Facts = Facts(versions: map<Uuid, VersionRow>, approvals: map<Uuid, Approval>)

  datatype Kind = DefinitionPublish | OtherCommand
  datatype ReceiptId = ReceiptId(actor: Uuid, key: string)
  datatype Receipt = Receipt(command: Uuid, kind: Kind, hash: string, response: Option<(int, Body)>)

  datatype State = State(facts: Facts, receipts: map<ReceiptId, Receipt>, audits: seq<Uuid>)

  /** The primary key of the receipts is taken. */
  predicate CommandUsed(s: State, command: Uuid) {
    exists id | id in s.receipts :: s.receipts[id].command == command
  }

  /** What the deferred trigger on an inserted approval asks for when the transaction commits. */
  predicate Backed(s: State, v: Uuid, a: Approval) {
    && v in s.facts.versions && s.facts.versions[v].status == PUBLISHED
    && s.facts.versions[v].publishedBy == Some(a.approvedBy) && s.facts.versions[v].digest == Some(a.sourceDigest)
    && exists id | id in s.receipts ::
         && s.receipts[id].command == a.command && id.actor == a.approvedBy && s.receipts[id].kind.DefinitionPublish?
         && s.receipts[id].response.Some? && 200 <= s.receipts[id].response.value.0 <= 299
  }

  predicate DeferredChecksPass(before: State, after: State) {
    forall v | v in after.facts.approvals && v !in before.facts.approvals :: Backed(after, v, after.facts.approvals[v])
  }

  class PublishDatabase {
    var state: State

    constructor (start: State)
      ensures state == start
    {
      state := start;
    }

    /** A commit whose deferred trigger raises changes nothing and is reported as failed. */
    method Commit(tx: State, ack: CommitAck) returns (ok: bool)
      modifies this
      ensures ok <==> ack.Acked? && DeferredChecksPass(old(state), tx)
      ensures state == if ack.LostNotApplied? || !DeferredChecksPass(old(state), tx) then old(state) else tx
    {
      ok := DeferredChecksPass(state, tx);
      if ok && !ack.LostNotApplied? {
        state := tx;
      }
      ok := ok && ack.Acked?;
    }
  }

  /** An open transaction with its stack of savepoints; dropping it changes no table. */
  class Session {
    var work: State
    var savepoints: seq<State>

    constructor (start: State)
      ensures work == start && savepoints == []
    {
      work, savepoints := start, [];
    }

    method Begin()
      modifies this
      ensures work == old(work) && savepoints == old(savepoints) + [old(work)]
    {
      savepoints := savepoints + [work];
    }

    method Release()
      requires savepoints != []
      modifies this
      ensures work == old(work) && savepoints == old(savepoints[..|savepoints| - 1])
    {
      savepoints := savepoints[..|savepoints| - 1];
    }

    method Rollback()
      requires savepoints != []
      modifies this
      ensures work == old(savepoints[|savepoints| - 1]) && savepoints == old(savepoints[..|savepoints| - 1])
    {
      work, savepoints := savepoints[|savepoints| - 1], savepoints[..|savepoints| - 1];
    }
  }

  // ---------------------------------------------------------------------------
  // The business part
  // ---------------------------------------------------------------------------

  datatype DefinitionError =
    | PermissionDenied
    | PrincipalNotFound
    | PrincipalDisabled
    | DomainNotFound
    | FixedPrincipalInvalid
    | NoDefinition
    | NoVersion
    | DisabledDomain
    | Archived
    | VersionNotDraft
    | VersionNotPublished
    | DuplicateKey
    | ConcurrentModification
    | InvalidLifecycleTransition
    | InvalidGraph(errors: seq<string>)
    | SchemaValidationFailed
    | DigestFailure
    | NotAdmitted(code: string, status: int)
    | Storage(detail: string)

  /** The conversion into the command's error; existence and permission look alike. */
  function Governed(c: Catalog, d: DefinitionError): (e: Error)
    requires CatalogOk(c)
    ensures Unstored(d) <==> !Stored(e)
  {
    match d
    case PermissionDenied | PrincipalNotFound | PrincipalDisabled | DomainNotFound => DefinitionNotFound
    case FixedPrincipalInvalid | NoDefinition | NoVersion => DefinitionNotFound
    case DisabledDomain => DomainDisabled
    case Archived => DefinitionArchived
    case VersionNotDraft => DefinitionVersionImmutable
    case VersionNotPublished => InternalConsistency("version_not_published on write path")
    case DuplicateKey => DefinitionKeyConflict
    case ConcurrentModification => RevisionConflict
    case InvalidLifecycleTransition => DefinitionNotEditable
    case InvalidGraph(errors) => GraphValidationFailed(Project(c, errors))
    case SchemaValidationFailed | DigestFailure => InternalConsistency("validation error")
    case NotAdmitted(code, status) => Error.AdmissionFailed(code, status)
    case Storage(detail) => StorageError(detail)
  }

  /** The errors after which no receipt is kept. */
  predicate Unstored(d: DefinitionError) {
    d.VersionNotPublished? || d.SchemaValidationFailed? || d.DigestFailure? || d.NotAdmitted? || d.Storage?
  }

  datatype Request = Request(id: ReceiptId, hash: string, version: Uuid, proposed: Uuid)

  /** What the reads and the directory said: before the version row was locked, on the graph and
      the policy, then on the literals, the admission and the remaining time, in this order. */
  datatype Checks = Checks(
    early: Option<DefinitionError>, graph: Option<DefinitionError>, digest: string, policy: Option<(Uuid, string)>,
    literals: Option<seq<string>>, admission: Option<(string, int)>, reread: Option<string>, budget: Option<(string, int)>)

  predicate Insertable(f: Facts, q: Request) {
    q.version !in f.approvals && forall v | v in f.approvals :: f.approvals[v].command != q.proposed
  }

  function FirstFailure(f: Facts, q: Request, k: Checks): (r: Option<DefinitionError>)
    ensures r.None? ==> q.version in f.versions && f.versions[q.version].status == DRAFT && (k.policy.Some? ==> Insertable(f, q))
  {
    if k.early.Some? then k.early
    else if q.version !in f.versions then Some(NoVersion)
    else if f.versions[q.version].status != DRAFT then Some(VersionNotDraft)
    else if k.graph.Some? then k.graph
    else if k.policy.Some? && !Insertable(f, q) then Some(Storage("duplicate approval"))
    else if k.literals.Some? then Some(InvalidGraph(k.literals.value))
    else if k.admission.Some? then Some(NotAdmitted(k.admission.value.0, k.admission.value.1))
    else if k.reread.Some? then Some(Storage(k.reread.value))
    else if k.budget.Some? then Some(NotAdmitted(k.budget.value.0, k.budget.value.1))
    else None
  }

  function WithApproval(f: Facts, q: Request, k: Checks): Facts {
    match k.policy
    case None => f
    case Some(p) => f.(approvals := f.approvals[q.version := Approval(q.proposed, q.id.actor, p.0, p.1, k.digest)])
  }

  /** The facts of a whole publication. */
  function Publication(f: Facts, q: Request, k: Checks): Facts {
    WithApproval(f, q, k).(versions := f.versions[q.version := VersionRow(PUBLISHED, Some(k.digest), Some(q.id.actor))])
  }

  /** The facts written when the business part ends, well or badly: none, the approval alone,
      or all of them. */
  function Written(f: Facts, q: Request, k: Checks): Facts {
    if || k.early.Some? || q.version !in f.versions || f.versions[q.version].status != DRAFT || k.graph.Some?
       || (k.policy.Some? && !Insertable(f, q)) then f
    else if k.literals.Some? || k.admission.Some? then WithApproval(f, q, k)
    else Publication(f, q, k)
  }

  method PublishOnTx(tx: Session, q: Request, k: Checks) returns (r: Option<DefinitionError>)
    modifies tx
    ensures tx.savepoints == old(tx.savepoints)
    ensures r == FirstFailure(old(tx.work.facts), q, k)
    ensures tx.work == old(tx.work).(facts := Written(old(tx.work.facts), q, k))
  {
    if k.early.Some? {
      return k.early;
    }
    if q.version !in tx.work.facts.versions {
      return Some(NoVersion);
    }
    if tx.work.facts.versions[q.version].status != DRAFT {
      return Some(VersionNotDraft);
    }
    if k.graph.Some? {
      return k.graph;
    }
    if k.policy.Some? {
      if !Insertable(tx.work.facts, q) {
        return Some(Storage("duplicate approval"));
      }
      var row := Approval(q.proposed, q.id.actor, k.policy.value.0, k.policy.value.1, k.digest);
      tx.work := tx.work.(facts := tx.work.facts.(approvals := tx.work.facts.approvals[q.version := row]));
    }
    if k.literals.Some? {
      return Some(InvalidGraph(k.literals.value));
    }
    if k.admission.Some? {
      return Some(NotAdmitted(k.admission.value.0, k.admission.value.1));
    }
    if tx.work.facts.versions[q.version].status == DRAFT {
      var row := VersionRow(PUBLISHED, Some(k.digest), Some(q.id.actor));
      tx.work := tx.work.(facts := tx.work.facts.(versions := tx.work.facts.versions[q.version := row]));
    }
    if k.reread.Some? {
      return Some(Storage(k.reread.value));
    }
    if k.budget.Some? {
      return Some(NotAdmitted(k.budget.value.0, k.budget.value.1));
    }
    return None;
  }

  // ---------------------------------------------------------------------------
  // The receipt transaction
  // ---------------------------------------------------------------------------

  /** A statement of the outer transaction that fails; the outer transaction is then dropped. */
  datatype Fault = NoFault | AcquireFails | BeginFails | ReleaseFails | SerialiseFails | RollbackFails | AuditFails | CompleteFails

  function FaultError(x: Fault): Error {
    if x.SerialiseFails? then InternalConsistency("response is not serialisable") else StorageError("statement failed")
  }

  /** The faults that stop a publication which succeeded, and one which failed. */
  predicate StopsSuccess(x: Fault) {
    x.AcquireFails? || x.BeginFails? || x.ReleaseFails? || x.SerialiseFails? || x.AuditFails? || x.CompleteFails?
  }

  predicate StopsError(x: Fault) {
    x.AcquireFails? || x.BeginFails? || x.RollbackFails? || x.CompleteFails?
  }

  function Acquire(s: State, id: ReceiptId, hash: string): (a: Acquired)
    ensures a.Owned? <==> id !in s.receipts
  {
    if id !in s.receipts then Owned
    else if s.receipts[id].hash != hash then Conflict
    else if s.receipts[id].response.None? then Processing
    else Replay(s.receipts[id].response.value.0, s.receipts[id].response.value.1)
  }

  const LOST := StorageError("commit acknowledgement lost")
  const DUPLICATE := StorageError("duplicate command id")

  function Done(q: Request, status: int, body: Body): Receipt {
    Receipt(q.proposed, DefinitionPublish, q.hash, Some((status, body)))
  }

  function Result(q: Request, k: Checks): Version {
    Version(q.version, k.digest)
  }

  function Completed(s: State, q: Request, k: Checks): State {
    State(Publication(s.facts, q, k), s.receipts[q.id := Done(q, 200, VersionBody(Result(q, k)))], s.audits + [q.id.actor])
  }

  function Rejected(s: State, q: Request, e: Error): State {
    s.(receipts := s.receipts[q.id := Done(q, StatusCode(e), ErrorBody(e, q.hash))])
  }

  /** The state after one call: all facts with their receipt and audit, or an error receipt
      alone, or nothing. */
  function PublishState(c: Catalog, s: State, q: Request, k: Checks, x: Fault, ack: CommitAck): State
    requires CatalogOk(c)
  {
    if q.id in s.receipts || CommandUsed(s, q.proposed) || ack.LostNotApplied? then s
    else
      match FirstFailure(s.facts, q, k)
      case None =>
        if StopsSuccess(x) then s
        else Completed(s, q, k)
      case Some(d) =>
        if Unstored(d) || StopsError(x) then s
        else Rejected(s, q, Governed(c, d))
  }

  function RejectReply(e: Error, x: Fault, ack: CommitAck): Reply {
    if x.RollbackFails? then Err(FaultError(x))
    else if !Stored(e) then Err(e)
    else if x.CompleteFails? then Err(FaultError(x))
    else if ack.Acked? then Err(e) else Err(LOST)
  }

  function PublishReply(c: Catalog, s: State, q: Request, k: Checks, x: Fault, ack: CommitAck): Reply
    requires CatalogOk(c)
  {
    if x.AcquireFails? then Err(FaultError(x))
    else if q.id in s.receipts then
      (if ack.Acked? then HandleReceiptResult(c, Acquire(s, q.id, q.hash), q.hash) else Err(LOST))
    else if CommandUsed(s, q.proposed) then Err(DUPLICATE)
    else if x.BeginFails? then Err(FaultError(x))
    else
      match FirstFailure(s.facts, q, k)
      case None =>
        if StopsSuccess(x) then Err(FaultError(x)) else if ack.Acked? then Ok(Result(q, k)) else Err(LOST)
      case Some(d) => RejectReply(Governed(c, d), x, ack)
  }

  /** The transaction's copy once the receipt is acquired. */
  function Opened(s: State, q: Request): State {
    s.(receipts := s.receipts[q.id := Receipt(q.proposed, DefinitionPublish, q.hash, None)])
  }

  /** The owned receipt gets its answer and the transaction commits. */
  method CompleteAndCommit(db: PublishDatabase, tx: Session, q: Request, status: int, body: Body,
      ack: CommitAck) returns (ok: bool)
    requires tx.work.receipts == Opened(db.state, q).receipts
    requires DeferredChecksPass(db.state, tx.work.(receipts := db.state.receipts[q.id := Done(q, status, body)]))
    modifies db, tx
    ensures ok <==> ack.Acked?
    ensures db.state == if ack.LostNotApplied? then old(db.state)
                        else old(tx.work).(receipts := old(db.state.receipts)[q.id := Done(q, status, body)])
  {
    hide DeferredChecksPass;
    tx.work := tx.work.(receipts := tx.work.receipts[q.id := Done(q, status, body)]);
    assert tx.work.receipts == db.state.receipts[q.id := Done(q, status, body)];
    ok := db.Commit(tx.work, ack);
  }

  /** The command's path when its business part succeeded. */
  method KeepFacts(db: PublishDatabase, tx: Session, q: Request, k: Checks, x: Fault, ack: CommitAck) returns (r: Reply)
    requires q.id !in db.state.receipts && tx.savepoints != [] && !x.AcquireFails? && !x.BeginFails?
    requires FirstFailure(db.state.facts, q, k).None?
    requires tx.work == Opened(db.state, q).(facts := Written(db.state.facts, q, k))
    modifies db, tx
    ensures db.state == if StopsSuccess(x) || ack.LostNotApplied? then old(db.state) else Completed(old(db.state), q, k)
    ensures r == if StopsSuccess(x) then Err(FaultError(x)) else if ack.Acked? then Ok(Result(q, k)) else Err(LOST)
  {
    hide FirstFailure, Written, Publication, DeferredChecksPass, Result, FaultError;
    if x.ReleaseFails? {
      return Err(FaultError(x));
    }
    tx.Release();
    if x.SerialiseFails? || x.AuditFails? {
      return Err(FaultError(x));
    }
    tx.work := tx.work.(audits := tx.work.audits + [q.id.actor]);
    if x.CompleteFails? {
      return Err(FaultError(x));
    }
    CompletionPasses(db.state, q, k);
    var ok := CompleteAndCommit(db, tx, q, 200, VersionBody(Result(q, k)), ack);
    return if ok then Ok(Result(q, k)) else Err(LOST);
  }

  /** The command's path when its business part failed, whatever that part wrote before. */
  method RejectFacts(db: PublishDatabase, tx: Session, q: Request, e: Error, x: Fault,
      ack: CommitAck) returns (r: Reply)
    requires q.id !in db.state.receipts && !x.AcquireFails? && !x.BeginFails? && tx.savepoints == [Opened(db.state, q)]
    modifies db, tx
    ensures db.state == if !Stored(e) || StopsError(x) || ack.LostNotApplied? then old(db.state) else Rejected(old(db.state), q, e)
    ensures r == RejectReply(e, x, ack)
  {
    hide ErrorBody, StatusCode, DeferredChecksPass, FaultError, Stored, Done;
    if x.RollbackFails? {
      return Err(FaultError(x));
    }
    tx.Rollback();
    if !Stored(e) {
      return Err(e);
    }
    if x.CompleteFails? {
      return Err(FaultError(x));
    }
    NothingNewPasses(db.state, Rejected(db.state, q, e));
    var ok := CompleteAndCommit(db, tx, q, StatusCode(e), ErrorBody(e, q.hash), ack);
    return if ok then Err(e) else Err(LOST);
  }

  /** The command.  Whatever part of its facts a failed business part wrote is rolled back to
      the savepoint, so the deferred check of the approval never refuses the commit. */
  method PublishVersion(c: Catalog, db: PublishDatabase, q: Request, k: Checks, x: Fault,
      ack: CommitAck) returns (r: Reply)
    requires CatalogOk(c)
    modifies db
    ensures db.state == PublishState(c, old(db.state), q, k, x, ack)
    ensures r == PublishReply(c, old(db.state), q, k, x, ack)
  {
    hide HandleReceiptResult, Acquire, FirstFailure, Written, DeferredChecksPass, CommandUsed, Unstored, FaultError,
         Result;
    hide Completed, Rejected, CatalogOk, Governed, Stored, RejectReply;
    if x.AcquireFails? {
      return Err(FaultError(x));
    }
    var tx := new Session(db.state);
    var acquired := Acquire(tx.work, q.id, q.hash);
    if !acquired.Owned? {
      NothingNewPasses(db.state, tx.work);
      var closed := db.Commit(tx.work, ack);
      return if closed then HandleReceiptResult(c, acquired, q.hash) else Err(LOST);
    }
    if CommandUsed(tx.work, q.proposed) {
      return Err(DUPLICATE);
    }
    tx.work := tx.work.(receipts := tx.work.receipts[q.id := Receipt(q.proposed, DefinitionPublish, q.hash, None)]);
    if x.BeginFails? {
      return Err(FaultError(x));
    }
    tx.Begin();
    var failed := PublishOnTx(tx, q, k);
    if failed.None? {
      r := KeepFacts(db, tx, q, k, x, ack);
    } else {
      r := RejectFacts(db, tx, q, Governed(c, failed.value), x, ack);
    }
  }

  lemma NothingNewPasses(s: State, u: State)
    requires u.facts == s.facts
    ensures DeferredChecksPass(s, u)
  {
  }

  lemma CompletionPasses(s: State, q: Request, k: Checks)
    requires FirstFailure(s.facts, q, k).None?
    ensures Written(s.facts, q, k) == Publication(s.facts, q, k)
    ensures DeferredChecksPass(s, Completed(s, q, k))
  {
    assert q.id in Completed(s, q, k).receipts;
  }

  // ---------------------------------------------------------------------------
  // Atomicity
  // ---------------------------------------------------------------------------

  predicate Answered(s: State, id: ReceiptId, status: int) {
    id in s.receipts && s.receipts[id].response.Some? && s.receipts[id].response.value.0 == status
  }

  /** Wherever the business part stops and whatever it has written by then: facts change exactly
      if the call leaves a new 200 receipt, and then they are all the facts of the publication
      with one audit; any other new receipt comes with no fact; an unstored error, or a failed
      statement, leaves no trace. */
  lemma PublishIsAtomic(c: Catalog, s: State, q: Request, k: Checks, x: Fault, ack: CommitAck)
    requires CatalogOk(c)
    ensures var u := PublishState(c, s, q, k, x, ack);
            && (u.facts != s.facts <==> q.id !in s.receipts && Answered(u, q.id, 200))
            && (u.facts != s.facts ==> u == Completed(s, q, k) && u.facts.versions[q.version].status == PUBLISHED
                                       && (k.policy.Some? ==> Backed(u, q.version, u.facts.approvals[q.version]))
                                       && (k.policy.None? ==> u.facts.approvals == s.facts.approvals))
            && u.audits == (if u.facts == s.facts then s.audits else s.audits + [q.id.actor])
            && (u.facts != s.facts ==>
                  && u.facts.versions == s.facts.versions[q.version := VersionRow(PUBLISHED, Some(k.digest), Some(q.id.actor))]
                  && u.facts.approvals
                     == (match k.policy
                         case None => s.facts.approvals
                         case Some(p) => s.facts.approvals[q.version := Approval(q.proposed, q.id.actor, p.0, p.1, k.digest)])
                  && u.receipts[q.id] == Receipt(q.proposed, DefinitionPublish, q.hash, Some((200, VersionBody(Version(q.version, k.digest))))))
            && (u != s ==> q.id !in s.receipts && q.id in u.receipts && u.receipts[q.id].response.Some?)
            && (FirstFailure(s.facts, q, k).Some? ==> u.facts == s.facts && (Unstored(FirstFailure(s.facts, q, k).value) ==> u == s))
            && (forall i :: i in s.receipts ==> i in u.receipts && u.receipts[i] == s.receipts[i])
            && (forall i :: i in u.receipts && i !in s.receipts ==> i == q.id)
  {
    hide ErrorBody, Project, CatalogOk;
    var u := PublishState(c, s, q, k, x, ack);
    var failed := FirstFailure(s.facts, q, k);
    if failed.None? {
      assert Completed(s, q, k).facts.versions[q.version].status == PUBLISHED;
      assert q.id in Completed(s, q, k).receipts;
    } else if u != s {
      StoredIsNot200(Governed(c, failed.value));
    }
  }

  lemma StoredIsNot200(e: Error)
    requires Stored(e)
    ensures 400 <= StatusCode(e) <= 500
  {
  }

  /** The order of the checks: which error a failing publication answers with, by the first thing
      that is wrong, and what exactly a publication needs. */
  lemma FailuresInOrder(c: Catalog, s: State, q: Request, k: Checks)
    requires CatalogOk(c) && q.id !in s.receipts && !CommandUsed(s, q.proposed)
    ensures var r := PublishReply(c, s, q, k, NoFault, Acked);
            var found := q.version in s.facts.versions;
            var draft := found && s.facts.versions[q.version].status.DRAFT?;
            var free := k.policy.Some? ==> q.version !in s.facts.approvals && forall v :: v in s.facts.approvals ==> s.facts.approvals[v].command != q.proposed;
            && (r.Ok? <==> k.early.None? && draft && k.graph.None? && free && k.literals.None? && k.admission.None? && k.reread.None? && k.budget.None?)
            && (k.early.None? && !found ==> r == Err(DefinitionNotFound))
            && (k.early.None? && found && !draft ==> r == Err(DefinitionVersionImmutable))
            && (k.early.None? && draft && k.graph.None? && !free ==> r.Err? && r.error.StorageError?)
            && (k.early.None? && draft && k.graph.None? && free && k.literals.Some? ==> r == Err(GraphValidationFailed(Project(c, k.literals.value))))
            && (k.early.None? && draft && k.graph.None? && free && k.literals.None? && k.admission.Some? ==>
                  r == Err(Error.AdmissionFailed(k.admission.value.0, k.admission.value.1)))
            && (k.early.Some? ==> r == Err(Governed(c, k.early.value)))
            && (k.early.None? && draft && k.graph.Some? ==> r == Err(Governed(c, k.graph.value)))
  {
    hide Project, CatalogOk, ErrorBody, StatusCode;
  }

  /** Existence and permission look alike to the caller: none of these seven tells another domain's
      definition from one that does not exist. */
  lemma MissingLooksForbidden(c: Catalog, d: DefinitionError)
    requires CatalogOk(c)
    ensures Governed(c, d).DefinitionNotFound?
       <==> d in {PermissionDenied, PrincipalNotFound, PrincipalDisabled, DomainNotFound, FixedPrincipalInvalid, NoDefinition, NoVersion}
  {
    hide CatalogOk;
  }

  /** What a caller may conclude: a version means the facts are there, a stored error that they
      are not, and an unstored one that nothing happened unless the acknowledgement was lost. */
  lemma ReplyTells(c: Catalog, s: State, q: Request, k: Checks, x: Fault, ack: CommitAck)
    requires CatalogOk(c) && q.id !in s.receipts
    ensures var u := PublishState(c, s, q, k, x, ack);
            var r := PublishReply(c, s, q, k, x, ack);
            && (r.Ok? ==> u == Completed(s, q, k) && r.version == Result(q, k) && ack.Acked?)
            && (r.Err? && Stored(r.error) ==> u == Rejected(s, q, r.error) && ack.Acked?)
            && (r.Err? && !Stored(r.error) && r.error != LOST ==> u == s)
  {
    hide ErrorBody, Project, CatalogOk;
  }

  /** A failing statement of the outer transaction answers as a storage error, an answer that does not
      serialise as an inconsistency; neither leaves anything behind. */
  lemma FaultsAnswer(c: Catalog, s: State, q: Request, k: Checks, x: Fault, ack: CommitAck)
    requires CatalogOk(c) && q.id !in s.receipts && !CommandUsed(s, q.proposed) && FirstFailure(s.facts, q, k).None?
    requires !x.NoFault? && !x.RollbackFails?
    ensures var r := PublishReply(c, s, q, k, x, ack);
            && PublishState(c, s, q, k, x, ack) == s
            && r.Err? && (if x == SerialiseFails then r.error.InternalConsistency? else r.error.StorageError?)
  {
    hide CatalogOk, FirstFailure;
  }

  /** What the deferred check of the database lets through: every new approval stands beside a
      published version of the same approver and digest, and beside the completed publish receipt
      of its command by that approver. */
  lemma DeferredExactly(s: State, u: State, v: Uuid, a: Approval)
    requires u.facts.approvals == s.facts.approvals[v := a] && v !in s.facts.approvals
    ensures DeferredChecksPass(s, u)
       <==> && v in u.facts.versions && u.facts.versions[v] == VersionRow(PUBLISHED, Some(a.sourceDigest), Some(a.approvedBy))
            && exists id :: id in u.receipts && id.actor == a.approvedBy && u.receipts[id].command == a.command
                            && u.receipts[id].kind == DefinitionPublish && u.receipts[id].response.Some?
                            && 200 <= u.receipts[id].response.value.0 <= 299
  {
    assert v in u.facts.approvals && u.facts.approvals[v] == a;
    assert DeferredChecksPass(s, u) <==> Backed(u, v, a);
  }

  /** Why the savepoint is there: with the approval written and the receipt answered by an error,
      the deferred check would refuse the commit, and the caller would never get that error. */
  lemma RollbackIsNeeded(s: State, q: Request, k: Checks, status: int, body: Body)
    requires q.id !in s.receipts && !CommandUsed(s, q.proposed) && !(200 <= status <= 299)
    requires k.policy.Some? && Written(s.facts, q, k) != s.facts
    ensures !DeferredChecksPass(s, State(Written(s.facts, q, k), s.receipts[q.id := Done(q, status, body)], s.audits))
  {
    var u := State(Written(s.facts, q, k), s.receipts[q.id := Done(q, status, body)], s.audits);
    assert q.version in u.facts.approvals && q.version !in s.facts.approvals;
    assert u.facts.approvals[q.version].command == q.proposed;
    assert !Backed(u, q.version, u.facts.approvals[q.version]);
  }

  /** The case arises: a literal is refused after the approval was inserted. */
  lemma ApprovalIsPartial(f: Facts, q: Request, k: Checks)
    requires k.early.None? && q.version in f.versions && f.versions[q.version].status == DRAFT && k.graph.None?
    requires k.policy.Some? && Insertable(f, q) && k.literals.Some?
    ensures FirstFailure(f, q, k) == Some(InvalidGraph(k.literals.value))
    ensures Written(f, q, k) != f && Written(f, q, k).versions == f.versions
  {
    assert q.version in Written(f, q, k).approvals;
  }

  // ---------------------------------------------------------------------------
  // Histories
  // ---------------------------------------------------------------------------

  datatype Call = Call(request: Request, checks: Checks, fault: Fault, ack: CommitAck)

  datatype Step = Publish(call: Call) | Other

  predicate Forward(before: Status, after: Status) {
    || before == after || (before.DRAFT? && after.PUBLISHED?) || (before.PUBLISHED? && (after.DEPRECATED? || after.REVOKED?))
    || (before.DEPRECATED? && after.REVOKED?)
  }

  predicate RowMoves(before: VersionRow, after: VersionRow) {
    Forward(before.status, after.status)
    && (before.status != DRAFT ==> after.digest == before.digest && after.publishedBy == before.publishedBy)
  }

  predicate ReceiptMoves(before: Receipt, after: Receipt) {
    after.command == before.command && after.kind == before.kind && after.hash == before.hash
    && (before.response.Some? || before.kind.DefinitionPublish? ==> after == before)
  }

  /** What any other command may do: the triggers keep approvals and the fields of versions that
      are no drafts, statuses only move forward, and receipts keep their identity and answer. */
  ghost predicate OtherStep(s: State, u: State) {
    && u.facts.approvals == s.facts.approvals
    && (forall v :: v in s.facts.versions ==> v in u.facts.versions && RowMoves(s.facts.versions[v], u.facts.versions[v]))
    && (forall i :: i in s.receipts ==> i in u.receipts && ReceiptMoves(s.receipts[i], u.receipts[i]))
    && (forall i :: i in u.receipts && i !in s.receipts ==> u.receipts[i].kind.OtherCommand? && !CommandUsed(s, u.receipts[i].command))
    && CommandsDistinct(u)
  }

  predicate CommandsDistinct(s: State) {
    forall i, j | i in s.receipts && j in s.receipts :: s.receipts[i].command == s.receipts[j].command ==> i == j
  }

  ghost predicate IsStep(c: Catalog, s: State, u: State, step: Step)
    requires CatalogOk(c)
  {
    match step
    case Publish(a) => u == PublishState(c, s, a.request, a.checks, a.fault, a.ack)
    case Other => OtherStep(s, u)
  }

  ghost predicate IsHistory(c: Catalog, states: seq<State>, steps: seq<Step>)
    requires CatalogOk(c)
  {
    |states| == |steps| + 1 && forall k :: 0 <= k < |steps| ==> IsStep(c, states[k], states[k + 1], steps[k])
  }

  /** The receipt `id` is the answer of a publication of `v`. */
  predicate Publishes(s: State, id: ReceiptId, v: Uuid) {
    id in s.receipts && s.receipts[id].kind.DefinitionPublish? && Answered(s, id, 200)
    && s.receipts[id].response.value.1.VersionBody? && s.receipts[id].response.value.1.version.id == v
  }

  /** The receipt of an approval: its command published that very version. */
  predicate Covered(s: State, v: Uuid, a: Approval) {
    && v in s.facts.versions && s.facts.versions[v] == VersionRow(s.facts.versions[v].status, Some(a.sourceDigest), Some(a.approvedBy))
    && s.facts.versions[v].status != DRAFT
    && exists id | id in s.receipts :: s.receipts[id].command == a.command && id.actor == a.approvedBy && Publishes(s, id, v)
  }

  /** What a database of this service keeps. */
  ghost predicate Sound(s: State) {
    && CommandsDistinct(s)
    && (forall v :: v in s.facts.approvals ==> Covered(s, v, s.facts.approvals[v]))
    && (forall id, v :: Publishes(s, id, v) ==> v in s.facts.versions && s.facts.versions[v].status != DRAFT)
    && (forall i, j, v :: Publishes(s, i, v) && Publishes(s, j, v) ==> i == j)
  }

  lemma SoundCompleted(s: State, q: Request, k: Checks)
    requires Sound(s) && q.id !in s.receipts && !CommandUsed(s, q.proposed) && FirstFailure(s.facts, q, k).None?
    ensures Sound(Completed(s, q, k))
  {
    var u := Completed(s, q, k);
    forall v | v in u.facts.approvals ensures Covered(u, v, u.facts.approvals[v]) {
      if v in s.facts.approvals {
        assert Covered(s, v, s.facts.approvals[v]);
        var id :| id in s.receipts && s.receipts[id].command == s.facts.approvals[v].command
                  && id.actor == s.facts.approvals[v].approvedBy && Publishes(s, id, v);
        assert u.receipts[id] == s.receipts[id] && Publishes(u, id, v);
      } else {
        assert Publishes(u, q.id, v);
      }
    }
    forall id, v | Publishes(u, id, v) ensures v in u.facts.versions && u.facts.versions[v].status != DRAFT && (v == q.version ==> id == q.id) {
      if id != q.id {
        assert Publishes(s, id, v);
      }
    }
    forall i, j, v | Publishes(u, i, v) && Publishes(u, j, v) ensures i == j {
      if v != q.version {
        assert Publishes(s, i, v) && Publishes(s, j, v);
      }
    }
  }

  lemma SoundRejected(s: State, q: Request, e: Error)
    requires Sound(s) && q.id !in s.receipts && !CommandUsed(s, q.proposed) && Stored(e)
    ensures Sound(Rejected(s, q, e))
  {
    hide ErrorBody, Stored, StatusCode;
    var u := Rejected(s, q, e);
    StoredIsNot200(e);
    assert forall id, v :: Publishes(u, id, v) ==> id != q.id && Publishes(s, id, v);
    forall v | v in u.facts.approvals ensures Covered(u, v, u.facts.approvals[v]) {
      assert Covered(s, v, s.facts.approvals[v]);
      var id :| id in s.receipts && s.receipts[id].command == s.facts.approvals[v].command
                && id.actor == s.facts.approvals[v].approvedBy && Publishes(s, id, v);
      assert u.receipts[id] == s.receipts[id] && Publishes(u, id, v);
    }
  }

  lemma SoundOther(s: State, u: State)
    requires Sound(s) && OtherStep(s, u)
    ensures Sound(u)
  {
    forall id, v | Publishes(u, id, v) ensures Publishes(s, id, v) {
      assert id in s.receipts;
    }
    forall v | v in u.facts.approvals ensures Covered(u, v, u.facts.approvals[v]) {
      assert Covered(s, v, s.facts.approvals[v]);
      var id :| id in s.receipts && s.receipts[id].command == s.facts.approvals[v].command
                && id.actor == s.facts.approvals[v].approvedBy && Publishes(s, id, v);
      assert u.receipts[id] == s.receipts[id] && Publishes(u, id, v);
      assert RowMoves(s.facts.versions[v], u.facts.versions[v]);
    }
    forall id, v | Publishes(u, id, v) ensures v in u.facts.versions && u.facts.versions[v].status != DRAFT {
      assert RowMoves(s.facts.versions[v], u.facts.versions[v]);
    }
  }

  lemma StepSound(c: Catalog, s: State, u: State, step: Step)
    requires CatalogOk(c) && Sound(s) && IsStep(c, s, u, step)
    ensures Sound(u)
  {
    hide Sound, ErrorBody, Project, CatalogOk, FirstFailure;
    if step.Other? {
      SoundOther(s, u);
    } else if u != s {
      var q, k := step.call.request, step.call.checks;
      var failed := FirstFailure(s.facts, q, k);
      if failed.None? {
        SoundCompleted(s, q, k);
      } else {
        SoundRejected(s, q, Governed(c, failed.value));
      }
    }
  }

  /** Over every history of publications and other commands: each approval belongs to the one
      receipt whose command published that version, no published version is a draft again, and
      one version has at most one publishing receipt. */
  lemma {:induction false} SoundAlways(c: Catalog, states: seq<State>, steps: seq<Step>, j: nat)
    requires CatalogOk(c) && IsHistory(c, states, steps) && j < |states| && Sound(states[0])
    ensures Sound(states[j])
  {
    if j > 0 {
      SoundAlways(c, states, steps, j - 1);
      StepSound(c, states[j - 1], states[j], steps[j - 1]);
    }
  }

  lemma {:induction false} ReceiptStays(c: Catalog, states: seq<State>, steps: seq<Step>, i: nat, j: nat, id: ReceiptId)
    requires CatalogOk(c) && IsHistory(c, states, steps) && i <= j < |states|
    requires id in states[i].receipts && states[i].receipts[id].kind.DefinitionPublish?
    ensures id in states[j].receipts && states[j].receipts[id] == states[i].receipts[id]
    decreases j
  {
    hide ErrorBody, Project, CatalogOk, FirstFailure;
    if i < j {
      ReceiptStays(c, states, steps, i, j - 1, id);
      assert IsStep(c, states[j - 1], states[j], steps[j - 1]);
    }
  }

  /** One version is published at most once, whoever calls and whatever the keys. */
  lemma OnePublicationPerVersion(c: Catalog, states: seq<State>, steps: seq<Step>, i: nat, j: nat)
    requires CatalogOk(c) && IsHistory(c, states, steps) && Sound(states[0]) && i < j < |steps| && steps[i].Publish? && steps[j].Publish?
    requires steps[i].call.request.version == steps[j].call.request.version && states[i + 1].facts != states[i].facts
    ensures states[j + 1].facts == states[j].facts
  {
    hide ErrorBody, Project, CatalogOk;
    var a, b := steps[i].call, steps[j].call;
    assert IsStep(c, states[i], states[i + 1], steps[i]) && IsStep(c, states[j], states[j + 1], steps[j]);
    PublishIsAtomic(c, states[i], a.request, a.checks, a.fault, a.ack);
    ReceiptStays(c, states, steps, i + 1, j, a.request.id);
    SoundAlways(c, states, steps, j);
    assert Publishes(states[j], a.request.id, a.request.version);
    PublishIsAtomic(c, states[j], b.request, b.checks, b.fault, b.ack);
  }

  /** One (actor, key) does something at most once. */
  lemma OnePublicationPerKey(c: Catalog, states: seq<State>, steps: seq<Step>, i: nat, j: nat)
    requires CatalogOk(c) && IsHistory(c, states, steps) && i < j < |steps| && steps[i].Publish? && steps[j].Publish?
    requires steps[i].call.request.id == steps[j].call.request.id && states[i + 1] != states[i]
    ensures states[j + 1] == states[j]
  {
    hide ErrorBody, Project, CatalogOk;
    var a := steps[i].call;
    assert IsStep(c, states[i], states[i + 1], steps[i]) && IsStep(c, states[j], states[j + 1], steps[j]);
    PublishIsAtomic(c, states[i], a.request, a.checks, a.fault, a.ack);
    ReceiptStays(c, states, steps, i + 1, j, a.request.id);
  }

  /** What a call was told, if it was told a version or a stored error, is what every later call
      with its key is told; for an error under another name if the definition was archived.
      Another request under that key is a conflict. */
  lemma LaterCallReplays(c: Catalog, states: seq<State>, steps: seq<Step>, i: nat, j: nat)
    requires CatalogOk(c) && IsHistory(c, states, steps) && i < j < |steps| && steps[i].Publish? && steps[j].Publish?
    requires steps[i].call.request.id == steps[j].call.request.id && steps[i].call.request.id !in states[i].receipts
    requires IsDigest(steps[i].call.request.hash) && !steps[j].call.fault.AcquireFails? && steps[j].call.ack.Acked?
    ensures var a, b := steps[i].call, steps[j].call;
            var first := PublishReply(c, states[i], a.request, a.checks, a.fault, a.ack);
            var later := PublishReply(c, states[j], b.request, b.checks, b.fault, b.ack);
            first.Ok? || Stored(first.error) ==>
              later == if a.request.hash != b.request.hash then Err(IdempotencyConflict)
                       else if first == Err(DefinitionArchived) then Err(DefinitionNotEditable) else first
  {
    hide CatalogOk, FirstFailure, Project, Admissible, IsDigest;
    var a, b := steps[i].call, steps[j].call;
    assert IsStep(c, states[i], states[i + 1], steps[i]);
    var first := PublishReply(c, states[i], a.request, a.checks, a.fault, a.ack);
    if first.Ok? || Stored(first.error) {
      ReplyTells(c, states[i], a.request, a.checks, a.fault, a.ack);
      ReceiptStays(c, states, steps, i + 1, j, a.request.id);
      if first.Err? {
        ReplyIsGoverned(c, states[i], a.request, a.checks, a.fault, a.ack);
        StoredErrorReplays(c, first.error, a.request.hash);
      }
    }
  }

  /** A stored error reply comes from the business part: its diagnostics are a projection. */
  lemma ReplyIsGoverned(c: Catalog, s: State, q: Request, k: Checks, x: Fault, ack: CommitAck)
    requires CatalogOk(c) && q.id !in s.receipts
    ensures var r := PublishReply(c, s, q, k, x, ack);
            r.Err? && Stored(r.error) ==>
              !r.error.InvalidGraphDiagnosticReceipt? && (r.error.GraphValidationFailed? ==> Admissible(c, r.error.details))
  {
    hide CatalogOk, Project, Admissible, ErrorBody;
    var failed := FirstFailure(s.facts, q, k);
    if failed.Some? && failed.value.InvalidGraph? {
      ProjectionAdmissible(c, failed.value.errors);
    }
  }
}
