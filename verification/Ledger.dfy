/** The tables the offline operators read and write, the constraints the schema enforces on
    them, and one method per SQL statement an operator issues inside its transaction. */
module Ledger {
  import opened Identifiers
  import Bindings

  const TERMINAL := "TERMINAL"
  const AGENT := "AGENT"
  const HUMAN := "HUMAN"

  datatype Principal = Principal(kind: string, display: string, enabled: bool)
  datatype Domain = Domain(key: string, enabled: bool)
  datatype Node = Node(definitionVersion: Uuid, key: string, kind: string)
  datatype Context = Context(workflow: Uuid, digest: string)

  datatype Instance = Instance(
    domain: Uuid, definitionVersion: Uuid, creator: Uuid,
    context: Option<Uuid>, visit: Option<Uuid>, version: int,
    cancelled: bool, archived: bool, semanticModel: int)

  datatype Visit = Visit(workflow: Uuid, node: Uuid, number: int, assignee: Option<Uuid>, byTransition: Option<Uuid>)

  /** UNIQUE (workflow_instance_id, event_sequence): events are keyed by it. */
  datatype Slot = Slot(workflow: Uuid, sequence: int)

  /** The current-state fields of an instance. */
  datatype Projection = Projection(context: Option<Uuid>, visit: Option<Uuid>, version: int)

  /** BeforeSnapshotV1; its digest is injective, so the snapshot stands for the digest. */
  datatype Snapshot = Snapshot(workflow: Uuid, domain: Uuid, definitionVersion: Uuid, creator: Uuid, projection: Projection)

  datatype MigrationData = MigrationData(
    migration: MigrationId, index: nat, oldAgent: string, newAgent: string,
    oldPrincipal: Uuid, newPrincipal: Uuid, workflow: Uuid, oldVisit: Uuid, newVisit: Uuid,
    node: Uuid, expected: int, resulting: int, before: Snapshot, after: Snapshot)

  datatype NormalizationData = NormalizationData(
    rowIndex: nat, workflow: Uuid, sourceVisit: Uuid, targetVisit: Uuid, oldPrincipal: Uuid,
    newPrincipal: Uuid, node: Uuid, oldVersion: int, newVersion: int)

  datatype EventKind =
    | Initial
    | ContextRevised
    | Transition
    | RevisedAndTransitioned
    | AdminOverride
    | Assistance
    | SuccessorMigration(migration: MigrationData)
    | HumanNormalized(normalization: NormalizationData)
    | OtherEvent(name: string)

  /** `payloadValid` summarises the payload checks of event kinds these operators never write. */
  datatype Event = Event(
    id: Uuid, command: Option<Uuid>, kind: EventKind, payloadValid: bool,
    source: Option<Uuid>, target: Option<Uuid>, context: Option<Uuid>,
    submission: Option<Uuid>, effect: Option<string>, actor: Uuid,
    fromNode: Option<Uuid>, toNode: Option<Uuid>, oldVersion: int, newVersion: int)

  /** Request and response bodies; hashes are injective, so a document stands for its hash. */
  datatype Document =
    | RowRequest(actor: Uuid, human: Uuid, workflow: Uuid, sourceVisit: Uuid, targetVisit: Uuid, version: int)
    | RowResponse(command: Uuid, event: Uuid, workflow: Uuid, targetVisit: Uuid, newVersion: int)
    | PlanDetails(database: string, human: Uuid, count: nat)
    | InstanceRequest(migration: MigrationId, index: nat, workflow: Uuid, actor: Uuid)
    | InstanceResponse(command: Uuid, event: Uuid, before: Snapshot, after: Snapshot)
    | SummaryRequest(migration: MigrationId, index: nat, actor: Uuid)
    | SummaryResponse(command: Uuid, audit: Uuid, index: nat, domains: nat, migrated: nat, skipped: nat)
    | OtherDocument(text: string)

  /** A PROCESSING receipt has no response. */
  datatype Receipt = Receipt(
    principal: Uuid, key: ReceiptKey, commandType: string, request: Document, response: Option<(int, Document)>)

  datatype Resource = NormalizationPlan | CutoverOf(migration: MigrationId) | OtherResource(text: string)
  datatype Audit = Audit(principal: Uuid, action: string, resource: Resource, details: Document)

  datatype Tables = Tables(
    principals: map<Uuid, Principal>,
    domains: map<Uuid, Domain>,
    bindings: Bindings.Table,
    nodes: map<Uuid, Node>,
    contexts: map<Uuid, Context>,
    definitions: map<Uuid, string>,
    openAssistance: set<Uuid>,
    instances: map<Uuid, Instance>,
    visits: map<Uuid, Visit>,
    events: map<Slot, Event>,
    receipts: map<Uuid, Receipt>,
    audits: map<Uuid, Audit>)

  // ---------------------------------------------------------------------------
  // Schema constraints
  // ---------------------------------------------------------------------------

  predicate SamePlace(a: Visit, b: Visit) {
    a.workflow == b.workflow && a.node == b.node && a.number == b.number
  }

  /** Migration 0003's keys and the assignee trigger of migration 0010. */
  ghost predicate VisitsSound(t: Tables) {
    && (forall v :: v in t.visits ==>
          && t.visits[v].workflow in t.instances
          && t.visits[v].node in t.nodes
          && t.nodes[t.visits[v].node].definitionVersion == t.instances[t.visits[v].workflow].definitionVersion
          && (t.nodes[t.visits[v].node].kind == TERMINAL <==> t.visits[v].assignee.None?))
    && (forall v, w :: v in t.visits && w in t.visits && SamePlace(t.visits[v], t.visits[w]) ==> v == w)
  }

  /** The composite foreign keys of migration 0006. */
  ghost predicate InstancesSound(t: Tables) {
    forall i :: i in t.instances ==>
      && (t.instances[i].visit.Some? ==>
            t.instances[i].visit.value in t.visits && t.visits[t.instances[i].visit.value].workflow == i)
      && (t.instances[i].context.Some? ==>
            t.instances[i].context.value in t.contexts && t.contexts[t.instances[i].context.value].workflow == i)
  }

  /** Migration 0004's checks and composite keys. */
  ghost predicate EventsSound(t: Tables) {
    forall s :: s in t.events ==>
      && t.events[s].newVersion == s.sequence == t.events[s].oldVersion + 1
      && (t.events[s].source.Some? ==> t.events[s].source.value in t.visits && t.visits[t.events[s].source.value].workflow == s.workflow)
      && (t.events[s].target.Some? ==> t.events[s].target.value in t.visits && t.visits[t.events[s].target.value].workflow == s.workflow)
  }

  /** Event ids, and event command ids for the command types here, are unique. */
  ghost predicate IdsUnique(events: map<Slot, Event>) {
    && (forall s, r :: s in events && r in events && events[s].id == events[r].id ==> s == r)
    && (forall s, r :: (s in events && r in events && events[s].command.Some? && events[s].command == events[r].command) ==> s == r)
  }

  ghost predicate EventsUnique(t: Tables) {
    IdsUnique(t.events)
  }

  /** idx_wf_receipt_idempotency. */
  ghost predicate ReceiptsUnique(t: Tables) {
    forall a, b :: (a in t.receipts && b in t.receipts
                    && t.receipts[a].principal == t.receipts[b].principal && t.receipts[a].key == t.receipts[b].key) ==> a == b
  }

  ghost predicate BindingsSound(t: Tables) {
    Bindings.SingleOwner(t.bindings) && Bindings.DistinctIds(t.bindings)
  }

  ghost predicate Sound(t: Tables) {
    && VisitsSound(t) && InstancesSound(t) && EventsSound(t) && EventsUnique(t)
    && ReceiptsUnique(t) && BindingsSound(t)
  }

  /** Visits, events, audits and completed receipts are never changed or deleted. */
  ghost predicate HistoryKept(t: Tables, u: Tables) {
    && (forall v :: v in t.visits ==> v in u.visits && u.visits[v] == t.visits[v])
    && (forall s :: s in t.events ==> s in u.events && u.events[s] == t.events[s])
    && (forall c :: c in t.receipts ==> c in u.receipts && (t.receipts[c].response.Some? ==> u.receipts[c] == t.receipts[c]))
    && (forall a :: a in t.audits ==> a in u.audits && u.audits[a] == t.audits[a])
  }

  // ---------------------------------------------------------------------------
  // When a statement is accepted
  // ---------------------------------------------------------------------------

  predicate VisitInsertable(t: Tables, id: Uuid, v: Visit) {
    && id !in t.visits
    && (forall w :: w in t.visits ==> !SamePlace(t.visits[w], v))
    && v.workflow in t.instances && v.node in t.nodes
    && t.nodes[v.node].definitionVersion == t.instances[v.workflow].definitionVersion
    && (t.nodes[v.node].kind == TERMINAL <==> v.assignee.None?)
    && (v.assignee.Some? ==> v.assignee.value in t.principals)
  }

  predicate EventInsertable(t: Tables, s: Slot, e: Event) {
    && s !in t.events && s.workflow in t.instances
    && e.newVersion == s.sequence == e.oldVersion + 1
    && (forall r :: r in t.events ==> t.events[r].id != e.id)
    && (e.command.Some? ==> e.command.value in t.receipts
                            && forall r :: r in t.events ==> t.events[r].command != e.command)
    && e.actor in t.principals
  }

  predicate ReceiptInsertable(t: Tables, command: Uuid, principal: Uuid, key: ReceiptKey) {
    && command !in t.receipts && principal in t.principals
    && forall c :: c in t.receipts ==> !(t.receipts[c].principal == principal && t.receipts[c].key == key)
  }

  /** One open transaction: its private copy of the tables, changed statement by statement.
      An INSERT that violates a constraint reports `ok == false` and aborts the caller. */
  class Transaction {
    var t: Tables

    constructor (start: Tables)
      ensures t == start
    {
      t := start;
    }

    method InsertReceipt(command: Uuid, principal: Uuid, key: ReceiptKey, commandType: string, request: Document)
      returns (ok: bool)
      modifies this
      ensures ok <==> ReceiptInsertable(old(t), command, principal, key)
      ensures t == if ok then old(t).(receipts := old(t).receipts[command := Receipt(principal, key, commandType, request, None)])
                   else old(t)
    {
      ok := ReceiptInsertable(t, command, principal, key);
      if ok {
        t := t.(receipts := t.receipts[command := Receipt(principal, key, commandType, request, None)]);
      }
    }

    /** UPDATE ... SET COMPLETED WHERE command_id = $1 AND receipt_status = 'PROCESSING'. */
    method CompleteReceipt(command: Uuid, status: int, response: Document) returns (affected: nat)
      modifies this
      ensures affected == if command in old(t).receipts && old(t).receipts[command].response.None? then 1 else 0
      ensures t == if affected == 1
                   then old(t).(receipts := old(t).receipts[command := old(t).receipts[command].(response := Some((status, response)))])
                   else old(t)
    {
      affected := 0;
      if command in t.receipts && t.receipts[command].response.None? {
        t := t.(receipts := t.receipts[command := t.receipts[command].(response := Some((status, response)))]);
        affected := 1;
      }
    }

    method InsertVisit(id: Uuid, v: Visit) returns (ok: bool)
      modifies this
      ensures ok <==> VisitInsertable(old(t), id, v)
      ensures t == if ok then old(t).(visits := old(t).visits[id := v]) else old(t)
    {
      ok := VisitInsertable(t, id, v);
      if ok {
        t := t.(visits := t.visits[id := v]);
      }
    }

    method InsertEvent(s: Slot, e: Event) returns (ok: bool)
      modifies this
      ensures ok <==> EventInsertable(old(t), s, e)
      ensures t == if ok then old(t).(events := old(t).events[s := e]) else old(t)
    {
      ok := EventInsertable(t, s, e);
      if ok {
        t := t.(events := t.events[s := e]);
      }
    }

    method InsertAudit(id: Uuid, a: Audit) returns (ok: bool)
      modifies this
      ensures ok <==> id !in old(t).audits && a.principal in old(t).principals
      ensures t == if ok then old(t).(audits := old(t).audits[id := a]) else old(t)
    {
      ok := id !in t.audits && a.principal in t.principals;
      if ok {
        t := t.(audits := t.audits[id := a]);
      }
    }

    method InsertPrincipal(id: Uuid, p: Principal) returns (ok: bool)
      modifies this
      ensures ok <==> id !in old(t).principals
      ensures t == if ok then old(t).(principals := old(t).principals[id := p]) else old(t)
    {
      ok := id !in t.principals;
      if ok {
        t := t.(principals := t.principals[id := p]);
      }
    }

    /** UPDATE workflow_instances SET current_node_visit_id, workflow_state_version
        WHERE the given guard holds of the row: the affected-row count is the CAS result. */
    method MoveInstance(workflow: Uuid, guard: bool, visit: Uuid, version: int) returns (affected: nat)
      requires guard ==> workflow in t.instances
      modifies this
      ensures affected == if guard then 1 else 0
      ensures t == if guard
                   then old(t).(instances := old(t).instances[workflow := old(t).instances[workflow].(visit := Some(visit), version := version)])
                   else old(t)
    {
      affected := 0;
      if guard {
        t := t.(instances := t.instances[workflow := t.instances[workflow].(visit := Some(visit), version := version)]);
        affected := 1;
      }
    }

    /** UPDATE domain_role_bindings SET enabled = FALSE WHERE (domain, principal, role) AND enabled. */
    method DisableBinding(k: Bindings.Key) returns (affected: nat)
      modifies this
      ensures affected == if Bindings.Enabled(old(t).bindings, k) then 1 else 0
      ensures t == if affected == 1
                   then old(t).(bindings := old(t).bindings[k := old(t).bindings[k].(enabled := false)])
                   else old(t)
    {
      affected := 0;
      if Bindings.Enabled(t.bindings, k) {
        t := t.(bindings := t.bindings[k := t.bindings[k].(enabled := false)]);
        affected := 1;
      }
    }

    /** INSERT ... ON CONFLICT (domain, principal, role) DO UPDATE SET enabled = TRUE; rejected
        by the primary key or by the single-owner index. */
    method UpsertBinding(k: Bindings.Key, id: Uuid) returns (ok: bool)
      modifies this
      ensures ok <==> UpsertAccepted(old(t).bindings, k, id)
      ensures t == if ok then old(t).(bindings := Upserted(old(t).bindings, k, id)) else old(t)
    {
      ok := UpsertAccepted(t.bindings, k, id);
      if ok {
        t := t.(bindings := Upserted(t.bindings, k, id));
      }
    }
  }

  function Upserted(b: Bindings.Table, k: Bindings.Key, id: Uuid): Bindings.Table {
    b[k := if k in b then b[k].(enabled := true) else Bindings.Binding(id, true)]
  }

  predicate UpsertAccepted(b: Bindings.Table, k: Bindings.Key, id: Uuid) {
    && (k in b || forall j :: j in b ==> b[j].id != id)
    && (k.role == Bindings.DOMAIN_OWNER ==>
          forall j :: (j in b && Bindings.Enabled(b, j) && j.domain == k.domain && j.role == k.role) ==> j == k)
  }
}
