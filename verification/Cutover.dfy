/** The trusted-fleet principal cutover operator: move one agent's domain roles and active
    responsibilities to its successor principal, pair by pair, each pair in one transaction. */
module Cutover {
  import opened Identifiers
  import opened Ledger
  import opened EventLog
  import opened Store
  import Bindings

  const COMMAND_TYPE := "PRINCIPAL_SUCCESSOR_MIGRATION_V1"
  const AUDIT_ACTION := "PRINCIPAL_SUCCESSOR_MIGRATION_V1_COMMITTED"

  datatype DomainTuple = DomainTuple(oldPrincipal: Uuid, newPrincipal: Uuid, domain: Uuid, domainKey: string, role: string)

  datatype Responsibility = Responsibility(
    oldPrincipal: Uuid, newPrincipal: Uuid, workflow: Uuid, domain: Uuid, visit: Uuid, node: Uuid, version: int)

  datatype Plan = Plan(pairs: seq<PairId>, domains: seq<DomainTuple>, responsibilities: seq<Responsibility>)

  datatype TupleState = Pre | Ready | Skip | Drift

  datatype Outcome = Committed | NoOp | Conflict | RolledBack | OutcomeUnknown

  // ---------------------------------------------------------------------------
  // The plan
  // ---------------------------------------------------------------------------

  function DomainsOf(ds: seq<DomainTuple>, pair: PairId): (r: seq<DomainTuple>)
    ensures forall d :: d in r <==> d in ds && d.oldPrincipal == pair.oldPrincipal && d.newPrincipal == pair.newPrincipal
  {
    if ds == [] then []
    else if ds[0].oldPrincipal == pair.oldPrincipal && ds[0].newPrincipal == pair.newPrincipal
    then [ds[0]] + DomainsOf(ds[1..], pair)
    else DomainsOf(ds[1..], pair)
  }

  function ResponsibilitiesOf(rs: seq<Responsibility>, pair: PairId): (r: seq<Responsibility>)
    ensures forall x :: x in r <==> x in rs && x.oldPrincipal == pair.oldPrincipal && x.newPrincipal == pair.newPrincipal
  {
    if rs == [] then []
    else if rs[0].oldPrincipal == pair.oldPrincipal && rs[0].newPrincipal == pair.newPrincipal
    then [rs[0]] + ResponsibilitiesOf(rs[1..], pair)
    else ResponsibilitiesOf(rs[1..], pair)
  }

  ghost predicate DistinctWorkflows(rs: seq<Responsibility>) {
    forall j, k :: 0 <= j < k < |rs| ==> rs[j].workflow != rs[k].workflow
  }

  /** validate_plan's structural checks, with the compiled counts and allowlist generalised. */
  ghost predicate PlanValid(plan: Plan) {
    && (forall j, k :: 0 <= j < k < |plan.pairs| ==> MigrationOf(plan.pairs[j]) != MigrationOf(plan.pairs[k]))
    && (forall d :: d in plan.domains ==> d.role == Bindings.DOMAIN_OWNER || d.role == Bindings.DOMAIN_MEMBER)
    && (forall r :: r in plan.responsibilities ==> r.version >= 1)
    && DistinctWorkflows(plan.responsibilities)
  }

  /** validate_plan inserts every instance id into a HashSet and stops at the first repeat. */
  method WorkflowsDistinct(rs: seq<Responsibility>) returns (ok: bool)
    ensures ok <==> DistinctWorkflows(rs)
  {
    var instances: set<Uuid> := {};
    for i := 0 to |rs|
      invariant forall w :: w in instances <==> exists k :: 0 <= k < i && rs[k].workflow == w
      invariant DistinctWorkflows(rs[..i])
    {
      if rs[i].workflow in instances {
        return false;
      }
      instances := instances + {rs[i].workflow};
    }
    assert rs[..|rs|] == rs;
    return true;
  }

  // ---------------------------------------------------------------------------
  // Derived identifiers
  // ---------------------------------------------------------------------------

  function MigrationOf(pair: PairId): MigrationId { MigrationId(pair.oldPrincipal, pair.newPrincipal) }
  function BindingId(index: nat, d: DomainTuple): Uuid { Derived(CutoverPlan, DomainBinding(index, d.domain, d.role)) }
  function VisitId(index: nat, r: Responsibility): Uuid { Derived(CutoverPlan, Label.VisitOf(index, r.workflow)) }
  function CommandId(index: nat, r: Responsibility): Uuid { Derived(CutoverPlan, CommandOf(index, r.workflow)) }
  function EventId(index: nat, r: Responsibility): Uuid { Derived(CutoverPlan, EventOf(index, r.workflow)) }
  function SummaryCommandId(index: nat): Uuid { Derived(CutoverPlan, SummaryCommand(index)) }
  function SummaryAuditId(index: nat): Uuid { Derived(CutoverPlan, SummaryAudit(index)) }
  function KeyOf(pair: PairId, r: Responsibility): ReceiptKey { InstanceKey(MigrationOf(pair), r.workflow) }

  // ---------------------------------------------------------------------------
  // Observed states
  // ---------------------------------------------------------------------------

  predicate ProjectionExact(t: Tables, pair: PairId, display: string) {
    pair.newPrincipal in t.principals && t.principals[pair.newPrincipal] == Principal(AGENT, display, true)
  }

  function OldKey(d: DomainTuple): Bindings.Key { Bindings.Key(d.domain, d.oldPrincipal, d.role) }
  function NewKey(d: DomainTuple): Bindings.Key { Bindings.Key(d.domain, d.newPrincipal, d.role) }

  /** A missing domain row is an error in the source; it counts as drift here. */
  function DomainState(domains: map<Uuid, Domain>, b: Bindings.Table, d: DomainTuple): TupleState {
    if d.domain !in domains || domains[d.domain] != Domain(d.domainKey, true) then Drift
    else if Bindings.Enabled(b, OldKey(d)) && !Bindings.Enabled(b, NewKey(d)) then Pre
    else if OldKey(d) in b && !b[OldKey(d)].enabled && Bindings.Enabled(b, NewKey(d)) then Ready
    else Drift
  }

  /** The instance joined with its current visit and that visit's node. */
  predicate Joined(t: Tables, w: Uuid) {
    && w in t.instances && t.instances[w].visit.Some? && t.instances[w].visit.value in t.visits
    && t.visits[t.instances[w].visit.value].node in t.nodes
  }

  predicate Closed(t: Tables, w: Uuid)
    requires Joined(t, w)
  {
    t.instances[w].cancelled || t.instances[w].archived || t.nodes[t.visits[t.instances[w].visit.value].node].kind == TERMINAL
  }

  predicate SourceOk(t: Tables, r: Responsibility) {
    && r.visit in t.visits && t.visits[r.visit].workflow == r.workflow
    && t.visits[r.visit].node == r.node && t.visits[r.visit].assignee == Some(r.oldPrincipal)
  }

  /** The instance is closed; the planned source visit still shows the old principal. */
  predicate Passed(t: Tables, r: Responsibility) {
    Joined(t, r.workflow) && Closed(t, r.workflow) && t.instances[r.workflow].domain == r.domain && SourceOk(t, r)
  }

  /** The instance stands exactly where the plan recorded it. */
  predicate Active(t: Tables, r: Responsibility) {
    && Joined(t, r.workflow) && !Closed(t, r.workflow)
    && var i := t.instances[r.workflow];
       && i.domain == r.domain && i.visit == Some(r.visit) && i.version == r.version
       && t.visits[r.visit].node == r.node && t.visits[r.visit].assignee == Some(r.oldPrincipal)
  }

  /** The migration event of `r`, which the schema puts in the slot of its new version. */
  predicate EventRecorded(t: Tables, r: Responsibility, current: Uuid) {
    var s := Slot(r.workflow, r.version + 1);
    && s in t.events && t.events[s].kind.SuccessorMigration?
    && t.events[s].source == Some(r.visit) && t.events[s].target == Some(current)
    && t.events[s].oldVersion == r.version && t.events[s].newVersion == r.version + 1
  }

  predicate Moved(t: Tables, r: Responsibility) {
    && Joined(t, r.workflow) && !Closed(t, r.workflow)
    && var i := t.instances[r.workflow];
       && i.domain == r.domain && i.version == r.version + 1
       && t.visits[i.visit.value].node == r.node && t.visits[i.visit.value].assignee == Some(r.newPrincipal)
       && EventRecorded(t, r, i.visit.value)
  }

  predicate NodeOfDefinition(t: Tables, w: Uuid)
    requires Joined(t, w)
  {
    t.nodes[t.visits[t.instances[w].visit.value].node].definitionVersion == t.instances[w].definitionVersion
  }

  function ResponsibilityState(t: Tables, r: Responsibility): TupleState {
    if !Joined(t, r.workflow) || !NodeOfDefinition(t, r.workflow) then Drift
    else if t.instances[r.workflow].domain != r.domain then Drift
    else if Closed(t, r.workflow) then (if SourceOk(t, r) then Skip else Drift)
    else if Active(t, r) then Pre
    else if Moved(t, r) then Ready
    else Drift
  }

  function Summaries(t: Tables, actor: Uuid, m: MigrationId): set<Uuid> {
    set c | c in t.receipts && t.receipts[c].principal == actor && t.receipts[c].key == SummaryKey(m) && t.receipts[c].commandType == COMMAND_TYPE
  }

  function CompletedSummaries(t: Tables, actor: Uuid, m: MigrationId): set<Uuid> {
    set c | c in Summaries(t, actor, m) && t.receipts[c].response.Some?
  }

  function SummaryAudits(t: Tables, actor: Uuid, m: MigrationId): set<Uuid> {
    set a | a in t.audits && t.audits[a].principal == actor && t.audits[a].action == AUDIT_ACTION && t.audits[a].resource == CutoverOf(m)
  }

  predicate PreExact(t: Tables, plan: Plan, pair: PairId, display: string, actor: Uuid) {
    && (ProjectionExact(t, pair, display) || pair.newPrincipal !in t.principals)
    && (forall d :: d in DomainsOf(plan.domains, pair) ==> DomainState(t.domains, t.bindings, d) == Pre)
    && (forall r :: r in ResponsibilitiesOf(plan.responsibilities, pair) ==> ResponsibilityState(t, r) in {Pre, Skip})
    && |Summaries(t, actor, MigrationOf(pair))| == 0 && |SummaryAudits(t, actor, MigrationOf(pair))| == 0
  }

  predicate TerminalExact(t: Tables, plan: Plan, pair: PairId, display: string, actor: Uuid) {
    && ProjectionExact(t, pair, display)
    && (forall d :: d in DomainsOf(plan.domains, pair) ==> DomainState(t.domains, t.bindings, d) == Ready)
    && (forall r :: r in ResponsibilitiesOf(plan.responsibilities, pair) ==> ResponsibilityState(t, r) in {Ready, Skip})
    && |CompletedSummaries(t, actor, MigrationOf(pair))| == 1 && |SummaryAudits(t, actor, MigrationOf(pair))| == 1
  }

  method CheckPreExact(db: Database, plan: Plan, pair: PairId, display: string, actor: Uuid) returns (ok: bool)
    ensures ok <==> PreExact(db.durable, plan, pair, display, actor)
  {
    var t := db.durable;
    if !ProjectionExact(t, pair, display) && pair.newPrincipal in t.principals {
      return false;
    }
    var ds, rs := DomainsOf(plan.domains, pair), ResponsibilitiesOf(plan.responsibilities, pair);
    for i := 0 to |ds|
      invariant forall k :: 0 <= k < i ==> DomainState(t.domains, t.bindings, ds[k]) == Pre
    {
      if DomainState(t.domains, t.bindings, ds[i]) != Pre {
        return false;
      }
    }
    for i := 0 to |rs|
      invariant forall k :: 0 <= k < i ==> ResponsibilityState(t, rs[k]) in {Pre, Skip}
    {
      if ResponsibilityState(t, rs[i]) !in {Pre, Skip} {
        return false;
      }
    }
    ok := |Summaries(t, actor, MigrationOf(pair))| == 0 && |SummaryAudits(t, actor, MigrationOf(pair))| == 0;
  }

  method CheckTerminalExact(db: Database, plan: Plan, pair: PairId, display: string, actor: Uuid) returns (ok: bool)
    ensures ok <==> TerminalExact(db.durable, plan, pair, display, actor)
  {
    var t := db.durable;
    if !ProjectionExact(t, pair, display) {
      return false;
    }
    var ds, rs := DomainsOf(plan.domains, pair), ResponsibilitiesOf(plan.responsibilities, pair);
    for i := 0 to |ds|
      invariant forall k :: 0 <= k < i ==> DomainState(t.domains, t.bindings, ds[k]) == Ready
    {
      if DomainState(t.domains, t.bindings, ds[i]) != Ready {
        return false;
      }
    }
    for i := 0 to |rs|
      invariant forall k :: 0 <= k < i ==> ResponsibilityState(t, rs[k]) in {Ready, Skip}
    {
      if ResponsibilityState(t, rs[i]) !in {Ready, Skip} {
        return false;
      }
    }
    ok := |CompletedSummaries(t, actor, MigrationOf(pair))| == 1 && |SummaryAudits(t, actor, MigrationOf(pair))| == 1;
  }

  // ---------------------------------------------------------------------------
  // Moving domain roles
  // ---------------------------------------------------------------------------

  predicate DomainAccepted(domains: map<Uuid, Domain>, b: Bindings.Table, index: nat, d: DomainTuple) {
    && (d.role == Bindings.DOMAIN_OWNER || d.role == Bindings.DOMAIN_MEMBER)
    && DomainState(domains, b, d) == Pre
    && UpsertAccepted(b[OldKey(d) := b[OldKey(d)].(enabled := false)], NewKey(d), BindingId(index, d))
  }

  function DomainMoved(b: Bindings.Table, index: nat, d: DomainTuple): Bindings.Table {
    if OldKey(d) !in b then b else Bindings.Move(b, OldKey(d), NewKey(d), BindingId(index, d))
  }

  predicate DomainsAccepted(domains: map<Uuid, Domain>, b: Bindings.Table, index: nat, ds: seq<DomainTuple>)
    decreases |ds|
  {
    ds == [] || (DomainAccepted(domains, b, index, ds[0]) && DomainsAccepted(domains, DomainMoved(b, index, ds[0]), index, ds[1..]))
  }

  function DomainsMoved(b: Bindings.Table, index: nat, ds: seq<DomainTuple>): Bindings.Table
    decreases |ds|
  {
    if ds == [] then b else DomainsMoved(DomainMoved(b, index, ds[0]), index, ds[1..])
  }

  method MoveDomain(tx: Transaction, index: nat, d: DomainTuple) returns (ok: bool)
    modifies tx
    ensures ok <==> DomainAccepted(old(tx.t).domains, old(tx.t).bindings, index, d)
    ensures ok ==> tx.t == old(tx.t).(bindings := DomainMoved(old(tx.t).bindings, index, d))
  {
    if d.role != Bindings.DOMAIN_OWNER && d.role != Bindings.DOMAIN_MEMBER {
      return false;
    }
    if d.domain !in tx.t.domains || !tx.t.domains[d.domain].enabled || tx.t.domains[d.domain].key != d.domainKey {
      return false;
    }
    if !Bindings.Enabled(tx.t.bindings, OldKey(d)) || Bindings.Enabled(tx.t.bindings, NewKey(d)) {
      return false;
    }
    var disabled := tx.DisableBinding(OldKey(d));
    if disabled != 1 {
      return false;
    }
    ok := tx.UpsertBinding(NewKey(d), BindingId(index, d));
  }

  method MoveDomains(tx: Transaction, index: nat, ds: seq<DomainTuple>) returns (ok: bool)
    modifies tx
    ensures ok <==> DomainsAccepted(old(tx.t).domains, old(tx.t).bindings, index, ds)
    ensures ok ==> tx.t == old(tx.t).(bindings := DomainsMoved(old(tx.t).bindings, index, ds))
  {
    ghost var start := tx.t;
    assert ds[0..] == ds;
    for i := 0 to |ds|
      invariant tx.t == start.(bindings := tx.t.bindings)
      invariant DomainsAccepted(start.domains, start.bindings, index, ds) <==> DomainsAccepted(start.domains, tx.t.bindings, index, ds[i..])
      invariant DomainsMoved(start.bindings, index, ds) == DomainsMoved(tx.t.bindings, index, ds[i..])
    {
      assert ds[i..][0] == ds[i] && ds[i..][1..] == ds[i + 1..];
      ok := MoveDomain(tx, index, ds[i]);
      if !ok { return; }
    }
    ok := true;
  }

  // ---------------------------------------------------------------------------
  // Migrating responsibilities
  // ---------------------------------------------------------------------------

  function Numbers(t: Tables, w: Uuid, node: Uuid): set<int> {
    set v | v in t.visits && t.visits[v].workflow == w && t.visits[v].node == node :: t.visits[v].number
  }

  lemma MaxExists(s: set<int>)
    requires s != {}
    ensures exists m :: m in s && forall n :: n in s ==> n <= m
  {
    assert (forall x :: x !in s) ==> s == {};
    var x :| x in s;
    if s != {x} {
      var rest := s - {x};
      MaxExists(rest);
      var m :| m in rest && forall n :: n in rest ==> n <= m;
      var top := if x > m then x else m;
      assert top in s && forall n :: n in s ==> n == x || n in rest;
    }
  }

  function Max(s: set<int>): (m: int)
    requires s != {}
    ensures m in s && forall n :: n in s ==> n <= m
  {
    MaxExists(s);
    var m :| m in s && forall n :: n in s ==> n <= m;
    m
  }

  /** COALESCE(MAX(visit_number), 0) + 1 */
  function NextNumber(t: Tables, w: Uuid, node: Uuid): (n: int)
    ensures forall v :: v in t.visits && t.visits[v].workflow == w && t.visits[v].node == node ==> t.visits[v].number < n
  {
    var s := Numbers(t, w, node);
    assert forall v :: v in t.visits && t.visits[v].workflow == w && t.visits[v].node == node ==> t.visits[v].number in s;
    if s == {} then 1 else Max(s) + 1
  }

  function NewVisit(t: Tables, pair: PairId, r: Responsibility): Visit {
    Visit(r.workflow, r.node, NextNumber(t, r.workflow, r.node), Some(pair.newPrincipal), None)
  }

  function DataOf(t: Tables, pair: PairId, index: nat, r: Responsibility): MigrationData
    requires r.workflow in t.instances
  {
    var context := t.instances[r.workflow].context;
    MigrationData(MigrationOf(pair), index, pair.oldAgent, pair.newAgent, pair.oldPrincipal, pair.newPrincipal,
                  r.workflow, r.visit, VisitId(index, r), r.node, r.version, r.version + 1,
                  SnapshotAt(t, r.workflow, Projection(context, Some(r.visit), r.version)),
                  SnapshotAt(t, r.workflow, Projection(context, Some(VisitId(index, r)), r.version + 1)))
  }

  function NewEvent(t: Tables, pair: PairId, index: nat, r: Responsibility, actor: Uuid): Event
    requires r.workflow in t.instances
  {
    Event(EventId(index, r), Some(CommandId(index, r)), SuccessorMigration(DataOf(t, pair, index, r)), true,
          Some(r.visit), Some(VisitId(index, r)), t.instances[r.workflow].context, None, None, actor,
          Some(r.node), Some(r.node), r.version, r.version + 1)
  }

  function Request(pair: PairId, index: nat, r: Responsibility, actor: Uuid): Document {
    InstanceRequest(MigrationOf(pair), index, r.workflow, actor)
  }

  function Response(t: Tables, pair: PairId, index: nat, r: Responsibility): Document
    requires r.workflow in t.instances
  {
    InstanceResponse(CommandId(index, r), EventId(index, r), DataOf(t, pair, index, r).before, DataOf(t, pair, index, r).after)
  }

  function NewReceipt(t: Tables, pair: PairId, index: nat, r: Responsibility, actor: Uuid): Receipt
    requires r.workflow in t.instances
  {
    Receipt(actor, KeyOf(pair, r), COMMAND_TYPE, Request(pair, index, r, actor), Some((200, Response(t, pair, index, r))))
  }

  /** Every statement of an active migration is accepted. */
  predicate MigrationAccepted(t: Tables, pair: PairId, index: nat, r: Responsibility, actor: Uuid) {
    && Active(t, r) && r.visit !in t.openAssistance
    && VisitInsertable(t, VisitId(index, r), NewVisit(t, pair, r))
    && ReceiptInsertable(t, CommandId(index, r), actor, KeyOf(pair, r))
    && Slot(r.workflow, r.version + 1) !in t.events
    && (forall s :: s in t.events ==> t.events[s].id != EventId(index, r))
    && (forall s :: s in t.events ==> t.events[s].command != Some(CommandId(index, r)))
  }

  function Migrated(t: Tables, pair: PairId, index: nat, r: Responsibility, actor: Uuid): Tables
    requires r.workflow in t.instances
  {
    Stepped(t, r.workflow, VisitId(index, r), NewVisit(t, pair, r), NewEvent(t, pair, index, r, actor))
      .(receipts := t.receipts[CommandId(index, r) := NewReceipt(t, pair, index, r, actor)])
  }

  predicate TupleAccepted(t: Tables, pair: PairId, index: nat, r: Responsibility, actor: Uuid) {
    Passed(t, r) || MigrationAccepted(t, pair, index, r, actor)
  }

  function TupleWritten(t: Tables, pair: PairId, index: nat, r: Responsibility, actor: Uuid): Tables {
    if r.workflow !in t.instances || Passed(t, r) then t else Migrated(t, pair, index, r, actor)
  }

  method InsertCompletedReceipt(tx: Transaction, command: Uuid, actor: Uuid, key: ReceiptKey, request: Document,
      response: Document)
    returns (ok: bool)
    modifies tx
    ensures ok <==> ReceiptInsertable(old(tx.t), command, actor, key)
    ensures ok ==> actor in tx.t.principals
    ensures ok ==> tx.t == old(tx.t).(receipts := old(tx.t).receipts[command := Receipt(actor, key, COMMAND_TYPE, request, Some((200, response)))])
  {
    ghost var start := tx.t;
    ok := tx.InsertReceipt(command, actor, key, COMMAND_TYPE, request);
    if !ok { return; }
    var updated := tx.CompleteReceipt(command, 200, response);
    ok := updated == 1;
    assert tx.t.receipts == start.receipts[command := Receipt(actor, key, COMMAND_TYPE, request, Some((200, response)))];
  }

  /** None: an error aborts the transaction; Some(migrated) otherwise. */
  method MigrateResponsibility(tx: Transaction, pair: PairId, index: nat, r: Responsibility,
      actor: Uuid) returns (done: Option<bool>)
    requires r.oldPrincipal == pair.oldPrincipal && r.newPrincipal == pair.newPrincipal
    modifies tx
    ensures done.Some? <==> TupleAccepted(old(tx.t), pair, index, r, actor)
    ensures done.Some? ==> done.value == !Passed(old(tx.t), r)
    ensures done.Some? ==> tx.t == TupleWritten(old(tx.t), pair, index, r, actor)
    ensures done == Some(false) ==> tx.t == old(tx.t)
    ensures done == Some(false)
       <==> && r.workflow in old(tx.t).instances && old(tx.t).instances[r.workflow].visit.Some?
            && var i, v := old(tx.t).instances[r.workflow], old(tx.t).instances[r.workflow].visit.value;
               && v in old(tx.t).visits && old(tx.t).visits[v].node in old(tx.t).nodes && i.domain == r.domain
               && (i.cancelled || i.archived || old(tx.t).nodes[old(tx.t).visits[v].node].kind == "TERMINAL")
               && r.visit in old(tx.t).visits && old(tx.t).visits[r.visit].workflow == r.workflow
               && old(tx.t).visits[r.visit].node == r.node && old(tx.t).visits[r.visit].assignee == Some(r.oldPrincipal)
  {
    ghost var start := tx.t;
    if !Joined(tx.t, r.workflow) {
      return None;
    }
    var i := tx.t.instances[r.workflow];
    if Closed(tx.t, r.workflow) {
      if i.domain != r.domain || !SourceOk(tx.t, r) {
        return None;
      }
      return Some(false);
    }
    if !Active(tx.t, r) || r.visit in tx.t.openAssistance {
      return None;
    }
    var response, event := Response(tx.t, pair, index, r), NewEvent(tx.t, pair, index, r, actor);
    var ok := tx.InsertVisit(VisitId(index, r), NewVisit(tx.t, pair, r));
    if !ok { return None; }
    var cas := tx.MoveInstance(r.workflow, tx.t.instances[r.workflow].visit == Some(r.visit) && tx.t.instances[r.workflow].version == r.version,
                               VisitId(index, r), r.version + 1);
    if cas != 1 {
      return None;
    }
    ok := InsertCompletedReceipt(tx, CommandId(index, r), actor, KeyOf(pair, r), Request(pair, index, r, actor), response);
    if !ok { return None; }
    ok := tx.InsertEvent(Slot(r.workflow, r.version + 1), event);
    if !ok { return None; }
    return Some(true);
  }

  predicate TuplesAccepted(t: Tables, pair: PairId, index: nat, rs: seq<Responsibility>, actor: Uuid)
    decreases |rs|
  {
    rs == [] || (TupleAccepted(t, pair, index, rs[0], actor) && TuplesAccepted(TupleWritten(t, pair, index, rs[0], actor), pair, index, rs[1..], actor))
  }

  function TuplesWritten(t: Tables, pair: PairId, index: nat, rs: seq<Responsibility>, actor: Uuid): Tables
    decreases |rs|
  {
    if rs == [] then t else TuplesWritten(TupleWritten(t, pair, index, rs[0], actor), pair, index, rs[1..], actor)
  }

  /** How many of the tuples are migrated rather than skipped. */
  function MigratedCount(t: Tables, pair: PairId, index: nat, rs: seq<Responsibility>, actor: Uuid): (n: nat)
    ensures n <= |rs|
    decreases |rs|
  {
    if rs == [] then 0
    else (if Passed(t, rs[0]) then 0 else 1) + MigratedCount(TupleWritten(t, pair, index, rs[0], actor), pair, index, rs[1..], actor)
  }

  method MigrateResponsibilities(tx: Transaction, pair: PairId, index: nat, rs: seq<Responsibility>, actor: Uuid)
    returns (ok: bool, migrated: nat, skipped: nat)
    requires forall r :: r in rs ==> r.oldPrincipal == pair.oldPrincipal && r.newPrincipal == pair.newPrincipal
    modifies tx
    ensures ok <==> TuplesAccepted(old(tx.t), pair, index, rs, actor)
    ensures ok ==> tx.t == TuplesWritten(old(tx.t), pair, index, rs, actor)
    ensures ok ==> migrated == MigratedCount(old(tx.t), pair, index, rs, actor) && migrated + skipped == |rs|
  {
    hide TupleAccepted, TupleWritten, Passed;
    ghost var start := tx.t;
    migrated, skipped := 0, 0;
    assert rs[0..] == rs;
    for i := 0 to |rs|
      invariant TuplesAccepted(start, pair, index, rs, actor) <==> TuplesAccepted(tx.t, pair, index, rs[i..], actor)
      invariant TuplesWritten(start, pair, index, rs, actor) == TuplesWritten(tx.t, pair, index, rs[i..], actor)
      invariant MigratedCount(start, pair, index, rs, actor) == migrated + MigratedCount(tx.t, pair, index, rs[i..], actor)
      invariant migrated + skipped == i
    {
      assert rs[i..][0] == rs[i] && rs[i..][1..] == rs[i + 1..];
      var done := MigrateResponsibility(tx, pair, index, rs[i], actor);
      match done
      case None => return false, migrated, skipped;
      case Some(moved) =>
        if moved { migrated := migrated + 1; } else { skipped := skipped + 1; }
    }
    ok := true;
  }

  // ---------------------------------------------------------------------------
  // One pair
  // ---------------------------------------------------------------------------

  predicate OldReady(t: Tables, pair: PairId) {
    && pair.oldPrincipal in t.principals
    && t.principals[pair.oldPrincipal].kind == AGENT && t.principals[pair.oldPrincipal].enabled
  }

  function Projected(principals: map<Uuid, Principal>, pair: PairId, display: string): map<Uuid, Principal> {
    if pair.newPrincipal in principals then principals else principals[pair.newPrincipal := Principal(AGENT, display, true)]
  }

  function WithDomains(t: Tables, plan: Plan, index: nat, pair: PairId, display: string): Tables {
    t.(principals := Projected(t.principals, pair, display),
       bindings := DomainsMoved(t.bindings, index, DomainsOf(plan.domains, pair)))
  }

  function WithResponsibilities(t: Tables, plan: Plan, index: nat, pair: PairId, display: string, actor: Uuid): Tables {
    TuplesWritten(WithDomains(t, plan, index, pair, display), pair, index, ResponsibilitiesOf(plan.responsibilities, pair), actor)
  }

  function SummaryBody(t: Tables, plan: Plan, index: nat, pair: PairId, display: string, actor: Uuid): Document {
    var rs := ResponsibilitiesOf(plan.responsibilities, pair);
    var n := MigratedCount(WithDomains(t, plan, index, pair, display), pair, index, rs, actor);
    SummaryResponse(SummaryCommandId(index), SummaryAuditId(index), index, |DomainsOf(plan.domains, pair)|, n, |rs| - n)
  }

  function SummaryReceipt(t: Tables, plan: Plan, index: nat, pair: PairId, display: string, actor: Uuid): Receipt {
    Receipt(actor, SummaryKey(MigrationOf(pair)), COMMAND_TYPE, SummaryRequest(MigrationOf(pair), index, actor),
            Some((200, SummaryBody(t, plan, index, pair, display, actor))))
  }

  function AuditOf(t: Tables, plan: Plan, index: nat, pair: PairId, display: string, actor: Uuid): Audit {
    Audit(actor, AUDIT_ACTION, CutoverOf(MigrationOf(pair)), SummaryBody(t, plan, index, pair, display, actor))
  }

  function PairWritten(t: Tables, plan: Plan, index: nat, pair: PairId, display: string, actor: Uuid): Tables {
    var u := WithResponsibilities(t, plan, index, pair, display, actor);
    u.(receipts := u.receipts[SummaryCommandId(index) := SummaryReceipt(t, plan, index, pair, display, actor)],
       audits := u.audits[SummaryAuditId(index) := AuditOf(t, plan, index, pair, display, actor)])
  }

  /** Enabled bindings the old principal still has in the pair's domains, of whatever role. */
  function Remaining(b: Bindings.Table, ds: seq<DomainTuple>, pair: PairId): set<Bindings.Key> {
    set k | k in b && b[k].enabled && k.principal == pair.oldPrincipal && exists d :: d in ds && d.domain == k.domain
  }

  /** The transaction reaches its commit. */
  predicate PairAccepted(t: Tables, plan: Plan, index: nat, pair: PairId, display: string, actor: Uuid) {
    var ds, rs := DomainsOf(plan.domains, pair), ResponsibilitiesOf(plan.responsibilities, pair);
    && |CompletedSummaries(t, actor, MigrationOf(pair))| == 0
    && OldReady(t, pair)
    && (pair.newPrincipal in t.principals ==> ProjectionExact(t, pair, display))
    && DomainsAccepted(t.domains, t.bindings, index, ds)
    && TuplesAccepted(WithDomains(t, plan, index, pair, display), pair, index, rs, actor)
    && ReceiptInsertable(WithResponsibilities(t, plan, index, pair, display, actor), SummaryCommandId(index), actor, SummaryKey(MigrationOf(pair)))
    && SummaryAuditId(index) !in WithResponsibilities(t, plan, index, pair, display, actor).audits
    && |Remaining(WithResponsibilities(t, plan, index, pair, display, actor).bindings, ds, pair)| == 0
  }

  /** Which of the re-reads after the commit can be made. */
  datatype Rereads = Rereads(terminal: bool, preimage: bool)

  function PairResult(t: Tables, plan: Plan, index: nat, pair: PairId, display: string, actor: Uuid,
      ack: CommitAck): Tables {
    if PairAccepted(t, plan, index, pair, display, actor) && !ack.LostNotApplied? then PairWritten(t, plan, index, pair, display, actor) else t
  }

  function PairReport(t: Tables, plan: Plan, index: nat, pair: PairId, display: string, actor: Uuid, ack: CommitAck,
      rereads: Rereads): Outcome {
    var u := PairResult(t, plan, index, pair, display, actor, ack);
    var terminal := rereads.terminal && TerminalExact(u, plan, pair, display, actor);
    if PairAccepted(t, plan, index, pair, display, actor) then
      if terminal then Committed
      else if ack.Acked? then Conflict
      else if !rereads.terminal || !rereads.preimage then OutcomeUnknown
      else if PreExact(u, plan, pair, display, actor) then RolledBack
      else Conflict
    else if |CompletedSummaries(t, actor, MigrationOf(pair))| == 1 && terminal then NoOp
    else Conflict
  }

  method WritePair(tx: Transaction, plan: Plan, index: nat, pair: PairId, display: string,
      actor: Uuid) returns (ok: bool)
    requires |CompletedSummaries(tx.t, actor, MigrationOf(pair))| == 0
    modifies tx
    ensures ok <==> PairAccepted(old(tx.t), plan, index, pair, display, actor)
    ensures ok ==> tx.t == PairWritten(old(tx.t), plan, index, pair, display, actor)
  {
    hide TuplesAccepted, TuplesWritten, DomainsAccepted, DomainsMoved, MigratedCount, Remaining, ReceiptInsertable;
    ghost var start := tx.t;
    if !OldReady(tx.t, pair) {
      return false;
    }
    if pair.newPrincipal !in tx.t.principals {
      ok := tx.InsertPrincipal(pair.newPrincipal, Principal(AGENT, display, true));
    } else if !ProjectionExact(tx.t, pair, display) {
      return false;
    }
    var ds := DomainsOf(plan.domains, pair);
    ok := MoveDomains(tx, index, ds);
    if !ok { return; }
    assert tx.t == WithDomains(start, plan, index, pair, display);
    var rs := ResponsibilitiesOf(plan.responsibilities, pair);
    var migrated, skipped;
    ok, migrated, skipped := MigrateResponsibilities(tx, pair, index, rs, actor);
    if !ok { return; }
    assert tx.t == WithResponsibilities(start, plan, index, pair, display, actor);
    var response := SummaryResponse(SummaryCommandId(index), SummaryAuditId(index), index, |ds|, migrated, skipped);
    assert response == SummaryBody(start, plan, index, pair, display, actor);
    ok := InsertCompletedReceipt(tx, SummaryCommandId(index), actor, SummaryKey(MigrationOf(pair)), SummaryRequest(MigrationOf(pair), index, actor), response);
    if !ok { return; }
    ok := InsertSummaryAudit(tx, index, pair, actor, response);
    if !ok { return; }
    ok := |Remaining(tx.t.bindings, ds, pair)| == 0;
  }

  method InsertSummaryAudit(tx: Transaction, index: nat, pair: PairId, actor: Uuid,
      response: Document) returns (ok: bool)
    requires actor in tx.t.principals
    modifies tx
    ensures ok <==> SummaryAuditId(index) !in old(tx.t).audits
    ensures ok ==> tx.t == old(tx.t).(audits := old(tx.t).audits[SummaryAuditId(index) := Audit(actor, AUDIT_ACTION, CutoverOf(MigrationOf(pair)), response)])
  {
    ok := tx.InsertAudit(SummaryAuditId(index), Audit(actor, AUDIT_ACTION, CutoverOf(MigrationOf(pair)), response));
  }

  method ApplyPair(db: Database, plan: Plan, index: nat, pair: PairId, display: string, actor: Uuid, ack: CommitAck,
      rereads: Rereads)
    returns (outcome: Outcome)
    modifies db
    ensures db.durable == PairResult(old(db.durable), plan, index, pair, display, actor, ack)
    ensures outcome == PairReport(old(db.durable), plan, index, pair, display, actor, ack, rereads)
  {
    hide PreExact, TerminalExact, PairWritten;
    var tx := new Transaction(db.durable);
    var done := |CompletedSummaries(tx.t, actor, MigrationOf(pair))|;
    if done > 1 {
      return Conflict;
    }
    var terminal := false;
    if done == 1 {
      if rereads.terminal {
        terminal := CheckTerminalExact(db, plan, pair, display, actor);
      }
      return if terminal then NoOp else Conflict;
    }
    var ok := WritePair(tx, plan, index, pair, display, actor);
    if !ok {
      return Conflict;
    }
    var acked := db.Commit(tx, ack);
    if rereads.terminal {
      terminal := CheckTerminalExact(db, plan, pair, display, actor);
    }
    if terminal {
      return Committed;
    }
    if acked {
      return Conflict;
    }
    if !rereads.terminal || !rereads.preimage {
      return OutcomeUnknown;
    }
    var pre := CheckPreExact(db, plan, pair, display, actor);
    return if pre then RolledBack else Conflict;
  }
}
