/** The HUMAN executor normalization operator: validate every plan row against the live
    tables, then write every row, in one transaction. */
module Normalization {
  import opened Identifiers
  import opened Ledger
  import opened EventLog
  import opened Store

  const COMMAND_TYPE := "HUMAN_EXECUTOR_NORMALIZATION_V2"
  const AUDIT_ACTION := "HUMAN_EXECUTOR_NORMALIZATION_V2_COMMITTED"

  datatype PlanRow = PlanRow(
    workflow: Uuid, sourceVisit: Uuid, version: int, assignee: Uuid, human: Uuid, targetVisit: Uuid,
    definitionVersion: Uuid, node: Uuid, visitNumber: int, context: Uuid, contextDigest: string,
    definitionKey: string, nodeKey: string, nodeType: string)

  datatype Outcome = Noop | Applied | Conflict | OutcomeUnknown

  // ---------------------------------------------------------------------------
  // The plan
  // ---------------------------------------------------------------------------

  predicate RowShape(row: PlanRow, human: Uuid) {
    row.human == human && row.version >= 1 && row.visitNumber >= 1 && |row.contextDigest| == 64 && row.nodeType != TERMINAL
  }

  ghost predicate PlanDistinct(rows: seq<PlanRow>) {
    forall j, k :: 0 <= j < k < |rows| ==>
      rows[j].workflow != rows[k].workflow && rows[j].sourceVisit != rows[k].sourceVisit && rows[j].targetVisit != rows[k].targetVisit
  }

  ghost predicate PlanShape(rows: seq<PlanRow>, human: Uuid) {
    PlanDistinct(rows) && forall k :: 0 <= k < |rows| ==> RowShape(rows[k], human)
  }

  /** A collected set is as large as its sequence exactly when nothing repeats. */
  lemma {:induction false} SetSizeDistinct(ids: seq<Uuid>)
    ensures |set x | x in ids| <= |ids|
    ensures |set x | x in ids| == |ids| <==> forall j, k :: 0 <= j < k < |ids| ==> ids[j] != ids[k]
  {
    if |ids| > 0 {
      var init, last := ids[..|ids| - 1], ids[|ids| - 1];
      SetSizeDistinct(init);
      var small, all := set x | x in init, set x | x in ids;
      assert ids == init + [last];
      assert all == small + {last};
      if last in init {
        assert all == small;
        var k :| 0 <= k < |init| && init[k] == last;
        assert ids[k] == ids[|ids| - 1];
      } else {
        assert |all| == |small| + 1;
        assert forall k :: 0 <= k < |init| ==> init[k] == ids[k] && init[k] in init;
      }
    }
  }

  function Workflows(rows: seq<PlanRow>): seq<Uuid> { seq(|rows|, k requires 0 <= k < |rows| => rows[k].workflow) }
  function Sources(rows: seq<PlanRow>): seq<Uuid> { seq(|rows|, k requires 0 <= k < |rows| => rows[k].sourceVisit) }
  function Targets(rows: seq<PlanRow>): seq<Uuid> { seq(|rows|, k requires 0 <= k < |rows| => rows[k].targetVisit) }

  /** The structural checks at the end of parse_plan, for a plan that must have `count` rows. */
  predicate PlanParses(rows: seq<PlanRow>, human: Uuid, count: nat) {
    && |rows| == |set x | x in Workflows(rows)| == |set x | x in Sources(rows)| == |set x | x in Targets(rows)| == count
    && forall k :: 0 <= k < |rows| ==> RowShape(rows[k], human)
  }

  /** Counting the collected sets checks pairwise distinctness, for plans of any length. */
  lemma PlanParsesExactly(rows: seq<PlanRow>, human: Uuid, count: nat)
    ensures PlanParses(rows, human, count) <==> |rows| == count && PlanShape(rows, human)
    ensures PlanShape(rows, human)
       <==> && (forall k :: 0 <= k < |rows| ==> && rows[k].human == human && rows[k].version >= 1 && rows[k].visitNumber >= 1
                                                && |rows[k].contextDigest| == 64 && rows[k].nodeType != "TERMINAL")
            && (forall j, k :: 0 <= j < k < |rows| ==> rows[j].workflow != rows[k].workflow)
            && (forall j, k :: 0 <= j < k < |rows| ==> rows[j].sourceVisit != rows[k].sourceVisit)
            && (forall j, k :: 0 <= j < k < |rows| ==> rows[j].targetVisit != rows[k].targetVisit)
  {
    SetSizeDistinct(Workflows(rows));
    SetSizeDistinct(Sources(rows));
    SetSizeDistinct(Targets(rows));
    assert forall k :: 0 <= k < |rows| ==> Workflows(rows)[k] == rows[k].workflow && Sources(rows)[k] == rows[k].sourceVisit && Targets(rows)[k] == rows[k].targetVisit;
  }

  // ---------------------------------------------------------------------------
  // What the operator reads
  // ---------------------------------------------------------------------------

  function CommandId(g: Group, row: PlanRow): Uuid { Derived(g, RowCommand(row.workflow)) }
  function EventId(g: Group, row: PlanRow): Uuid { Derived(g, RowEvent(row.workflow)) }
  function KeyOf(g: Group, row: PlanRow): ReceiptKey { NormalizationKey(g, row.workflow) }
  function SlotOf(row: PlanRow): Slot { Slot(row.workflow, row.version + 1) }

  predicate PrincipalsReady(t: Tables, actor: Uuid, human: Uuid) {
    && actor != human && actor in t.principals && human in t.principals
    && t.principals[actor].enabled && t.principals[human].enabled
    && t.principals[actor].kind == AGENT && t.principals[human].kind == HUMAN
  }

  predicate OwnsReceipt(g: Group, row: PlanRow, actor: Uuid, c: Uuid, r: Receipt) {
    c == CommandId(g, row) || (r.principal == actor && r.key == KeyOf(g, row))
  }

  predicate OwnsEvent(g: Group, row: PlanRow, s: Slot, e: Event) {
    e.id == EventId(g, row) || e.command == Some(CommandId(g, row)) || s == SlotOf(row)
  }

  function VisitArtifacts(t: Tables, rows: seq<PlanRow>): set<Uuid> {
    set v | v in t.visits && exists k :: 0 <= k < |rows| && rows[k].targetVisit == v
  }

  function ReceiptArtifacts(t: Tables, rows: seq<PlanRow>, actor: Uuid, g: Group): set<Uuid> {
    set c | c in t.receipts && exists k :: 0 <= k < |rows| && OwnsReceipt(g, rows[k], actor, c, t.receipts[c])
  }

  function EventArtifacts(t: Tables, rows: seq<PlanRow>, g: Group): set<Slot> {
    set s | s in t.events && exists k :: 0 <= k < |rows| && OwnsEvent(g, rows[k], s, t.events[s])
  }

  /** How many table rows the plan's own artifacts would collide with. */
  function ArtifactCount(t: Tables, rows: seq<PlanRow>, actor: Uuid, g: Group): nat {
    |VisitArtifacts(t, rows)| + |ReceiptArtifacts(t, rows, actor, g)| + |EventArtifacts(t, rows, g)|
    + (if Derived(g, GroupAudit) in t.audits then 1 else 0)
  }

  /** The facts of a row that no write changes: source visit, context, definition, node. */
  predicate RowFacts(t: Tables, row: PlanRow) {
    && row.sourceVisit in t.visits && row.context in t.contexts && row.definitionVersion in t.definitions && row.node in t.nodes
    && t.visits[row.sourceVisit].node == row.node && t.visits[row.sourceVisit].number == row.visitNumber
    && t.visits[row.sourceVisit].assignee == Some(row.assignee)
    && t.nodes[row.node] == Node(row.definitionVersion, row.nodeKey, row.nodeType)
    && t.contexts[row.context].digest == row.contextDigest && t.definitions[row.definitionVersion] == row.definitionKey
  }

  predicate RowCurrent(t: Tables, row: PlanRow, visit: Uuid, version: int) {
    && row.workflow in t.instances
    && t.instances[row.workflow] == t.instances[row.workflow].(visit := Some(visit), context := Some(row.context),
         definitionVersion := row.definitionVersion, version := version, cancelled := false, archived := false, semanticModel := 1)
  }

  predicate VisitCollides(row: PlanRow, id: Uuid, v: Visit) {
    id == row.targetVisit || (v.workflow == row.workflow && v.node == row.node && v.number == row.visitNumber + 1)
  }

  /** The preimage a row must match exactly, no open assistance, no colliding visit. */
  predicate RowReady(t: Tables, row: PlanRow) {
    && RowCurrent(t, row, row.sourceVisit, row.version) && RowFacts(t, row)
    && row.sourceVisit !in t.openAssistance
    && forall w :: w in t.visits ==> !VisitCollides(row, w, t.visits[w])
  }

  method Prevalidate(tx: Transaction, rows: seq<PlanRow>) returns (ok: bool)
    ensures ok <==> forall k :: 0 <= k < |rows| ==> RowReady(tx.t, rows[k])
    ensures ok <==> forall k :: 0 <= k < |rows| ==> PreimageHolds(tx.t, rows[k])
  {
    for i := 0 to |rows|
      invariant forall k :: 0 <= k < i ==> RowReady(tx.t, rows[k]) && PreimageHolds(tx.t, rows[k])
    {
      ReadyColumns(tx.t, rows[i]);
      if !RowReady(tx.t, rows[i]) {
        return false;
      }
    }
    return true;
  }

  // ---------------------------------------------------------------------------
  // What one row writes
  // ---------------------------------------------------------------------------

  function RowVisit(row: PlanRow): Visit {
    Visit(row.workflow, row.node, row.visitNumber + 1, Some(row.human), None)
  }

  function RowData(row: PlanRow, index: nat): NormalizationData {
    NormalizationData(index, row.workflow, row.sourceVisit, row.targetVisit, row.assignee, row.human, row.node, row.version, row.version + 1)
  }

  function RowEventOf(row: PlanRow, index: nat, actor: Uuid, g: Group): Event {
    Event(EventId(g, row), Some(CommandId(g, row)), HumanNormalized(RowData(row, index)), true,
          Some(row.sourceVisit), Some(row.targetVisit), Some(row.context), None, None, actor,
          Some(row.node), Some(row.node), row.version, row.version + 1)
  }

  function Request(row: PlanRow, actor: Uuid): Document {
    RowRequest(actor, row.human, row.workflow, row.sourceVisit, row.targetVisit, row.version)
  }

  function Response(row: PlanRow, g: Group): Document {
    RowResponse(CommandId(g, row), EventId(g, row), row.workflow, row.targetVisit, row.version + 1)
  }

  function RowReceipt(row: PlanRow, actor: Uuid, g: Group): Receipt {
    Receipt(actor, KeyOf(g, row), COMMAND_TYPE, Request(row, actor), Some((200, Response(row, g))))
  }

  predicate CasGuard(t: Tables, row: PlanRow) {
    && row.workflow in t.instances
    && var i := t.instances[row.workflow];
       && i.visit == Some(row.sourceVisit) && i.context == Some(row.context) && i.version == row.version
       && i.definitionVersion == row.definitionVersion && !i.cancelled && !i.archived
  }

  /** Every statement of write_row is accepted. */
  predicate RowAccepted(t: Tables, row: PlanRow, actor: Uuid, g: Group) {
    && ReceiptInsertable(t, CommandId(g, row), actor, KeyOf(g, row))
    && VisitInsertable(t, row.targetVisit, RowVisit(row))
    && CasGuard(t, row)
    && SlotOf(row) !in t.events
    && (forall s :: s in t.events ==> t.events[s].id != EventId(g, row))
    && (forall s :: s in t.events ==> t.events[s].command != Some(CommandId(g, row)))
  }

  function RowWritten(t: Tables, row: PlanRow, index: nat, actor: Uuid, g: Group): Tables {
    if row.workflow !in t.instances then t
    else Stepped(t, row.workflow, row.targetVisit, RowVisit(row), RowEventOf(row, index, actor, g))
           .(receipts := t.receipts[CommandId(g, row) := RowReceipt(row, actor, g)])
  }

  lemma ReceiptLeavesVisits(t: Tables, u: Tables, id: Uuid, v: Visit)
    requires u == t.(receipts := u.receipts)
    ensures VisitInsertable(u, id, v) == VisitInsertable(t, id, v)
  {
  }

  /** Statement by statement, in the order of the source; false aborts the transaction. */
  method WriteRow(tx: Transaction, row: PlanRow, index: nat, actor: Uuid, g: Group) returns (ok: bool)
    modifies tx
    ensures ok <==> RowAccepted(old(tx.t), row, actor, g)
    ensures ok ==> tx.t == RowWritten(old(tx.t), row, index, actor, g)
  {
    hide VisitInsertable;
    ghost var start := tx.t;
    ok := tx.InsertReceipt(CommandId(g, row), actor, KeyOf(g, row), COMMAND_TYPE, Request(row, actor));
    if !ok { return; }
    ReceiptLeavesVisits(start, tx.t, row.targetVisit, RowVisit(row));
    ok := tx.InsertVisit(row.targetVisit, RowVisit(row));
    if !ok { return; }
    var affected := tx.MoveInstance(row.workflow, CasGuard(tx.t, row), row.targetVisit, row.version + 1);
    if affected != 1 { return false; }
    ok := tx.InsertEvent(SlotOf(row), RowEventOf(row, index, actor, g));
    if !ok { return; }
    affected := tx.CompleteReceipt(CommandId(g, row), 200, Response(row, g));
    ok := affected == 1;
    assert tx.t.receipts == start.receipts[CommandId(g, row) := RowReceipt(row, actor, g)];
  }

  /** The tables after all `rows`, the first of which has index `first`. */
  function WriteRows(t: Tables, rows: seq<PlanRow>, first: nat, actor: Uuid, g: Group): Tables
    decreases |rows|
  {
    if rows == [] then t else WriteRows(RowWritten(t, rows[0], first, actor, g), rows[1..], first + 1, actor, g)
  }

  function Final(t: Tables, rows: seq<PlanRow>, actor: Uuid, human: Uuid, database: string): Tables {
    var g := NormalizationGroup(actor, database);
    var u := WriteRows(t, rows, 1, actor, g);
    u.(audits := u.audits[Derived(g, GroupAudit) := PlanAudit(rows, actor, human, database)])
  }

  function PlanAudit(rows: seq<PlanRow>, actor: Uuid, human: Uuid, database: string): Audit {
    Audit(actor, AUDIT_ACTION, NormalizationPlan, PlanDetails(database, human, |rows|))
  }

  // ---------------------------------------------------------------------------
  // The terminal state
  // ---------------------------------------------------------------------------

  /** verify_terminal's three reads for one row, column by column.  An event's sequence equals
      its new version by the schema, so the event of the row can only sit in the row's slot. */
  predicate RowTerminal(t: Tables, row: PlanRow, actor: Uuid, g: Group) {
    && RowCurrent(t, row, row.targetVisit, row.version + 1) && RowFacts(t, row)
    && t.visits[row.sourceVisit].workflow == row.workflow
    && row.targetVisit in t.visits
    && t.visits[row.targetVisit] == Visit(row.workflow, row.node, row.visitNumber + 1, Some(row.human), None)
    && CommandId(g, row) in t.receipts && ReceiptExact(t.receipts[CommandId(g, row)], row, actor, g)
    && SlotOf(row) in t.events && EventExact(t.events[SlotOf(row)], row, actor, g)
  }

  predicate ReceiptExact(r: Receipt, row: PlanRow, actor: Uuid, g: Group) {
    && r.principal == actor && r.key == KeyOf(g, row) && r.commandType == COMMAND_TYPE
    && r.request == RowRequest(actor, row.human, row.workflow, row.sourceVisit, row.targetVisit, row.version)
    && r.response == Some((200, RowResponse(CommandId(g, row), EventId(g, row), row.workflow, row.targetVisit, row.version + 1)))
  }

  /** Every column and every fixed payload field; the row index is not compared. */
  predicate EventExact(e: Event, row: PlanRow, actor: Uuid, g: Group) {
    && e.id == EventId(g, row) && e.command == Some(CommandId(g, row)) && e.kind.HumanNormalized?
    && e.effect.None? && e.submission.None? && e.actor == actor
    && e.source == Some(row.sourceVisit) && e.target == Some(row.targetVisit) && e.context == Some(row.context)
    && e.fromNode == Some(row.node) && e.toNode == Some(row.node)
    && e.oldVersion == row.version && e.newVersion == row.version + 1
    && var d := e.kind.normalization;
       && d.workflow == row.workflow && d.sourceVisit == row.sourceVisit && d.targetVisit == row.targetVisit
       && d.oldPrincipal == row.assignee && d.newPrincipal == row.human && d.node == row.node
       && d.oldVersion == row.version && d.newVersion == row.version + 1
  }

  predicate Terminal(t: Tables, rows: seq<PlanRow>, actor: Uuid, human: Uuid, database: string) {
    var g := NormalizationGroup(actor, database);
    && PrincipalsReady(t, actor, human)
    && (forall k :: 0 <= k < |rows| ==> RowTerminal(t, rows[k], actor, g))
    && Derived(g, GroupAudit) in t.audits && t.audits[Derived(g, GroupAudit)] == PlanAudit(rows, actor, human, database)
  }

  method VerifyTerminal(db: Database, rows: seq<PlanRow>, actor: Uuid, human: Uuid, database: string) returns (ok: bool)
    ensures ok <==> Terminal(db.durable, rows, actor, human, database)
  {
    var g := NormalizationGroup(actor, database);
    if !PrincipalsReady(db.durable, actor, human) {
      return false;
    }
    for i := 0 to |rows|
      invariant forall k :: 0 <= k < i ==> RowTerminal(db.durable, rows[k], actor, g)
    {
      if !RowTerminal(db.durable, rows[i], actor, g) {
        return false;
      }
    }
    ok := Derived(g, GroupAudit) in db.durable.audits && db.durable.audits[Derived(g, GroupAudit)] == PlanAudit(rows, actor, human, database);
  }

  /** Everything apply checks before its first write. */
  predicate Applicable(t: Tables, rows: seq<PlanRow>, actor: Uuid, human: Uuid, database: string) {
    && PrincipalsReady(t, actor, human)
    && ArtifactCount(t, rows, actor, NormalizationGroup(actor, database)) == 0
    && forall k :: 0 <= k < |rows| ==> RowReady(t, rows[k])
  }

  // ---------------------------------------------------------------------------
  // Validation covers every write
  // ---------------------------------------------------------------------------

  lemma NoArtifacts(t: Tables, rows: seq<PlanRow>, actor: Uuid, g: Group, k: nat)
    requires ArtifactCount(t, rows, actor, g) == 0 && k < |rows|
    ensures rows[k].targetVisit !in t.visits && CommandId(g, rows[k]) !in t.receipts && SlotOf(rows[k]) !in t.events
    ensures Derived(g, GroupAudit) !in t.audits
    ensures forall c :: c in t.receipts ==> !(t.receipts[c].principal == actor && t.receipts[c].key == KeyOf(g, rows[k]))
    ensures forall s :: s in t.events ==> t.events[s].id != EventId(g, rows[k]) && t.events[s].command != Some(CommandId(g, rows[k]))
  {
    var vs, cs, ss := VisitArtifacts(t, rows), ReceiptArtifacts(t, rows, actor, g), EventArtifacts(t, rows, g);
    assert vs == {} && cs == {} && ss == {};
    assert rows[k].targetVisit !in vs && CommandId(g, rows[k]) !in cs && SlotOf(rows[k]) !in ss;
    forall c | c in t.receipts ensures !(t.receipts[c].principal == actor && t.receipts[c].key == KeyOf(g, rows[k])) {
      assert c !in cs;
    }
    forall s | s in t.events ensures t.events[s].id != EventId(g, rows[k]) && t.events[s].command != Some(CommandId(g, rows[k])) {
      assert s !in ss;
    }
  }

  /** A validated row of an artifact-free plan is accepted by every statement. */
  lemma ReadyAccepted(t: Tables, rows: seq<PlanRow>, k: nat, actor: Uuid, human: Uuid, g: Group)
    requires k < |rows| && RowShape(rows[k], human) && PrincipalsReady(t, actor, human)
    requires ArtifactCount(t, rows, actor, g) == 0 && RowReady(t, rows[k])
    ensures RowAccepted(t, rows[k], actor, g)
  {
    var row := rows[k];
    NoArtifacts(t, rows, actor, g, k);
    forall w | w in t.visits ensures !SamePlace(t.visits[w], RowVisit(row)) {
      assert !VisitCollides(row, w, t.visits[w]);
    }
  }

  ghost predicate Apart(a: PlanRow, b: PlanRow) {
    a.workflow != b.workflow && a.targetVisit != b.targetVisit
  }

  /** Writing one row leaves every other row acceptable: no CAS misses, no key collides. */
  lemma AcceptedPersists(t: Tables, done: PlanRow, index: nat, row: PlanRow, actor: Uuid, g: Group)
    requires Apart(done, row) && RowAccepted(t, done, actor, g) && RowAccepted(t, row, actor, g)
    ensures RowAccepted(RowWritten(t, done, index, actor, g), row, actor, g)
  {
    var u := RowWritten(t, done, index, actor, g);
    assert CasGuard(u, row);
    assert VisitInsertable(u, row.targetVisit, RowVisit(row));
    assert ReceiptInsertable(u, CommandId(g, row), actor, KeyOf(g, row));
  }

  lemma TerminalPersists(t: Tables, done: PlanRow, index: nat, row: PlanRow, actor: Uuid, g: Group)
    requires Apart(done, row) && RowAccepted(t, done, actor, g) && RowTerminal(t, row, actor, g)
    ensures RowTerminal(RowWritten(t, done, index, actor, g), row, actor, g)
  {
  }

  lemma WrittenIsTerminal(t: Tables, row: PlanRow, index: nat, actor: Uuid, g: Group)
    requires RowAccepted(t, row, actor, g) && Prepared(t, row)
    ensures RowTerminal(RowWritten(t, row, index, actor, g), row, actor, g)
  {
  }

  /** The start state from which the write loop runs. */
  ghost predicate Start(t: Tables, rows: seq<PlanRow>, actor: Uuid, human: Uuid, g: Group) {
    && PlanShape(rows, human) && PrincipalsReady(t, actor, human)
    && ArtifactCount(t, rows, actor, g) == 0
    && (forall k :: 0 <= k < |rows| ==> RowReady(t, rows[k]))
  }

  /** Every row of the write loop is accepted in its turn. */
  ghost predicate LoopAccepted(t: Tables, rows: seq<PlanRow>, first: nat, actor: Uuid, g: Group)
    decreases |rows|
  {
    rows != [] ==>
      RowAccepted(t, rows[0], actor, g) && LoopAccepted(RowWritten(t, rows[0], first, actor, g), rows[1..], first + 1, actor, g)
  }

  /** Validation is complete: if every row is acceptable at the start, none fails later. */
  lemma {:induction false} LoopNeverFails(t: Tables, rows: seq<PlanRow>, first: nat, actor: Uuid, g: Group)
    requires PlanDistinct(rows) && forall k :: 0 <= k < |rows| ==> RowAccepted(t, rows[k], actor, g)
    ensures LoopAccepted(t, rows, first, actor, g)
    decreases |rows|
  {
    hide RowAccepted, RowWritten;
    if rows != [] {
      var u, rest := RowWritten(t, rows[0], first, actor, g), rows[1..];
      forall k | 0 <= k < |rest| ensures RowAccepted(u, rest[k], actor, g) {
        assert rest[k] == rows[k + 1];
        AcceptedPersists(t, rows[0], first, rest[k], actor, g);
      }
      LoopNeverFails(u, rest, first + 1, actor, g);
    }
  }

  lemma StartAccepted(t: Tables, rows: seq<PlanRow>, actor: Uuid, human: Uuid, g: Group)
    requires Start(t, rows, actor, human, g)
    ensures LoopAccepted(t, rows, 1, actor, g)
  {
    forall k | 0 <= k < |rows| ensures RowAccepted(t, rows[k], actor, g) {
      ReadyAccepted(t, rows, k, actor, human, g);
    }
    LoopNeverFails(t, rows, 1, actor, g);
  }

  /** The part of a row's preimage that its own write needs and other writes leave alone. */
  ghost predicate Prepared(t: Tables, row: PlanRow) {
    && RowFacts(t, row) && row.workflow in t.instances && t.instances[row.workflow].semanticModel == 1
    && t.visits[row.sourceVisit].workflow == row.workflow
  }

  lemma PreparedPersists(t: Tables, done: PlanRow, index: nat, row: PlanRow, actor: Uuid, g: Group)
    requires RowAccepted(t, done, actor, g) && Prepared(t, row)
    ensures Prepared(RowWritten(t, done, index, actor, g), row)
  {
  }

  lemma {:induction false} TerminalKept(t: Tables, rows: seq<PlanRow>, first: nat, row: PlanRow, actor: Uuid, g: Group)
    requires LoopAccepted(t, rows, first, actor, g) && RowTerminal(t, row, actor, g)
    requires forall k :: 0 <= k < |rows| ==> Apart(rows[k], row)
    ensures RowTerminal(WriteRows(t, rows, first, actor, g), row, actor, g)
    decreases |rows|
  {
    hide RowAccepted, RowWritten, RowTerminal;
    if rows != [] {
      TerminalPersists(t, rows[0], first, row, actor, g);
      TerminalKept(RowWritten(t, rows[0], first, actor, g), rows[1..], first + 1, row, actor, g);
    }
  }

  /** A row is terminal right after its own write and stays terminal through the later ones. */
  lemma {:induction false} RowsTerminal(t: Tables, rows: seq<PlanRow>, first: nat, m: nat, actor: Uuid, g: Group)
    requires LoopAccepted(t, rows, first, actor, g) && PlanDistinct(rows) && m < |rows| && Prepared(t, rows[m])
    ensures RowTerminal(WriteRows(t, rows, first, actor, g), rows[m], actor, g)
    decreases |rows|
  {
    hide RowAccepted, RowWritten, RowTerminal, Prepared;
    var u, rest := RowWritten(t, rows[0], first, actor, g), rows[1..];
    assert forall k :: 0 <= k < |rest| ==> rest[k] == rows[k + 1];
    if m == 0 {
      WrittenIsTerminal(t, rows[0], first, actor, g);
      TerminalKept(u, rest, first + 1, rows[0], actor, g);
    } else {
      PreparedPersists(t, rows[0], first, rows[m], actor, g);
      RowsTerminal(u, rest, first + 1, m - 1, actor, g);
    }
  }

  /** Nothing else changed: the other tables are equal and history is kept. */
  lemma {:induction false} RowsFrame(t: Tables, rows: seq<PlanRow>, first: nat, actor: Uuid, g: Group)
    requires LoopAccepted(t, rows, first, actor, g)
    ensures SameElsewhere(t, WriteRows(t, rows, first, actor, g)) && HistoryKept(t, WriteRows(t, rows, first, actor, g))
    decreases |rows|
  {
    hide RowAccepted, RowWritten;
    if rows != [] {
      var u := RowWritten(t, rows[0], first, actor, g);
      RowFrame(t, rows[0], first, actor, g);
      RowsFrame(u, rows[1..], first + 1, actor, g);
      HistoryKeptTransitive(t, u, WriteRows(t, rows, first, actor, g));
    }
  }

  /** Each row adds exactly one visit, one event and one receipt. */
  lemma {:induction false} RowsCount(t: Tables, rows: seq<PlanRow>, first: nat, actor: Uuid, g: Group)
    requires LoopAccepted(t, rows, first, actor, g)
    ensures var u := WriteRows(t, rows, first, actor, g);
            && |u.visits| == |t.visits| + |rows| && |u.events| == |t.events| + |rows| && |u.receipts| == |t.receipts| + |rows|
            && u.instances.Keys == t.instances.Keys
    decreases |rows|
  {
    hide RowAccepted, RowWritten;
    if rows != [] {
      RowFrame(t, rows[0], first, actor, g);
      RowsCount(RowWritten(t, rows[0], first, actor, g), rows[1..], first + 1, actor, g);
    }
  }

  /** A planned instance keeps every column but its current visit and its version. */
  lemma {:induction false} PlannedOnlyMoves(t: Tables, rows: seq<PlanRow>, first: nat, m: nat, actor: Uuid, g: Group)
    requires LoopAccepted(t, rows, first, actor, g) && PlanDistinct(rows) && m < |rows|
    ensures var w := rows[m].workflow; var u := WriteRows(t, rows, first, actor, g);
            w in t.instances && w in u.instances
            && u.instances[w] == t.instances[w].(visit := Some(rows[m].targetVisit), version := rows[m].version + 1)
    decreases |rows|
  {
    hide Untouched, PlanDistinct, RowAccepted, RowWritten;
    RowMovesInstance(t, rows[0], first, actor, g);
    var u, rest, w := RowWritten(t, rows[0], first, actor, g), rows[1..], rows[m].workflow;
    DistinctRest(rows);
    if m == 0 {
      OthersUntouched(u, rest, first + 1, w, actor, g);
      UntouchedInstance(u, WriteRows(u, rest, first + 1, actor, g), w);
    } else {
      assert rest[m - 1] == rows[m];
      PlannedOnlyMoves(u, rest, first + 1, m - 1, actor, g);
    }
  }

  lemma RowMovesInstance(t: Tables, row: PlanRow, index: nat, actor: Uuid, g: Group)
    requires RowAccepted(t, row, actor, g)
    ensures row.workflow in t.instances
    ensures RowWritten(t, row, index, actor, g).instances
         == t.instances[row.workflow := t.instances[row.workflow].(visit := Some(row.targetVisit), version := row.version + 1)]
  {
  }

  lemma DistinctRest(rows: seq<PlanRow>)
    requires PlanDistinct(rows) && rows != []
    ensures PlanDistinct(rows[1..]) && forall j :: 0 <= j < |rows[1..]| ==> rows[1..][j].workflow != rows[0].workflow
  {
    assert forall j :: 0 <= j < |rows[1..]| ==> rows[1..][j] == rows[j + 1];
  }

  lemma UntouchedInstance(t: Tables, u: Tables, w: Uuid)
    requires Untouched(t, u, w) && w in t.instances
    ensures w in u.instances && u.instances[w] == t.instances[w]
  {
  }

  /** An instance outside the plan keeps its row, its visits and its events. */
  lemma {:induction false} OthersUntouched(t: Tables, rows: seq<PlanRow>, first: nat, w: Uuid, actor: Uuid, g: Group)
    requires LoopAccepted(t, rows, first, actor, g)
    requires forall j :: 0 <= j < |rows| ==> rows[j].workflow != w
    ensures Untouched(t, WriteRows(t, rows, first, actor, g), w)
    decreases |rows|
  {
    hide RowAccepted, RowWritten, Untouched;
    if rows == [] {
      UntouchedReflexive(t, w);
    } else {
      var u := RowWritten(t, rows[0], first, actor, g);
      RowUntouched(t, rows[0], first, w, actor, g);
      OthersUntouched(u, rows[1..], first + 1, w, actor, g);
      UntouchedTransitive(t, u, WriteRows(t, rows, first, actor, g), w);
    }
  }

  lemma RowUntouched(t: Tables, row: PlanRow, index: nat, w: Uuid, actor: Uuid, g: Group)
    requires RowAccepted(t, row, actor, g) && row.workflow != w
    ensures Untouched(t, RowWritten(t, row, index, actor, g), w)
  {
  }

  lemma RowFrame(t: Tables, row: PlanRow, index: nat, actor: Uuid, g: Group)
    requires RowAccepted(t, row, actor, g)
    ensures var u := RowWritten(t, row, index, actor, g);
            && HistoryKept(t, u) && SameElsewhere(t, u) && u.instances.Keys == t.instances.Keys
            && |u.visits| == |t.visits| + 1 && |u.events| == |t.events| + 1 && |u.receipts| == |t.receipts| + 1
  {
  }

  /** A row is one log-extending step plus its receipt. */
  lemma RowKeepsLog(t: Tables, row: PlanRow, index: nat, actor: Uuid, g: Group)
    requires RowAccepted(t, row, actor, g) && Sound(t) && AllExact(t)
    ensures Sound(RowWritten(t, row, index, actor, g)) && AllExact(RowWritten(t, row, index, actor, g))
  {
    var v, e := RowVisit(row), RowEventOf(row, index, actor, g);
    assert StepFits(t, row.workflow, row.targetVisit, v, e);
    StepKeepsLog(t, row.workflow, row.targetVisit, v, e);
    var s := Stepped(t, row.workflow, row.targetVisit, v, e);
    ReceiptKeepsLog(s, CommandId(g, row), RowReceipt(row, actor, g));
  }

  lemma {:induction false} RowsKeepLog(t: Tables, rows: seq<PlanRow>, first: nat, actor: Uuid, g: Group)
    requires LoopAccepted(t, rows, first, actor, g) && Sound(t) && AllExact(t)
    ensures Sound(WriteRows(t, rows, first, actor, g)) && AllExact(WriteRows(t, rows, first, actor, g))
    decreases |rows|
  {
    hide RowAccepted, RowWritten, Sound, AllExact;
    if rows != [] {
      RowKeepsLog(t, rows[0], first, actor, g);
      RowsKeepLog(RowWritten(t, rows[0], first, actor, g), rows[1..], first + 1, actor, g);
    }
  }

  // ---------------------------------------------------------------------------
  // The operator
  // ---------------------------------------------------------------------------

  /** What an apply leaves behind, as a function of what it found. */
  function Result(t: Tables, rows: seq<PlanRow>, actor: Uuid, human: Uuid, database: string, ack: CommitAck): Tables {
    if Applicable(t, rows, actor, human, database) && !ack.LostNotApplied?
    then Final(t, rows, actor, human, database) else t
  }

  /** What an apply reports.  `reread` says whether the durable re-read could be made. */
  function Report(t: Tables, rows: seq<PlanRow>, actor: Uuid, human: Uuid, database: string, ack: CommitAck,
      reread: bool): Outcome {
    if Applicable(t, rows, actor, human, database) then
      (match ack
       case Acked => if reread then Applied else Conflict
       case LostApplied => if reread then Applied else OutcomeUnknown
       case LostNotApplied => OutcomeUnknown)
    else if PrincipalsReady(t, actor, human) && ArtifactCount(t, rows, actor, NormalizationGroup(actor, database)) != 0
            && reread && Terminal(t, rows, actor, human, database) then Noop
    else Conflict
  }

  method Apply(db: Database, rows: seq<PlanRow>, actor: Uuid, human: Uuid, database: string, ack: CommitAck,
      reread: bool)
    returns (outcome: Outcome, writes: nat)
    requires PlanShape(rows, human) && VisitsSound(db.durable) && InstancesSound(db.durable)
    modifies db
    ensures db.durable == Result(old(db.durable), rows, actor, human, database, ack)
    ensures outcome == Report(old(db.durable), rows, actor, human, database, ack, reread)
    ensures writes == if outcome.Applied? && ack.Acked? then 4 * |rows| + 1 else 0
  {
    hide RowReady, RowTerminal, ArtifactCount, RowAccepted, RowWritten, PlanDistinct, RowShape, VisitsSound,
         InstancesSound;
    var g := NormalizationGroup(actor, database);
    var tx := new Transaction(db.durable);
    if !PrincipalsReady(tx.t, actor, human) {
      return Conflict, 0;
    }
    if ArtifactCount(tx.t, rows, actor, g) != 0 {
      var done := false;
      if reread {
        done := VerifyTerminal(db, rows, actor, human, database);
      }
      return if done then Noop else Conflict, 0;
    }
    var ready := Prevalidate(tx, rows);
    if !ready {
      return Conflict, 0;
    }
    ghost var start := tx.t;
    StartAccepted(start, rows, actor, human, g);
    ghost var written := WriteRows(start, rows, 1, actor, g);
    assert rows[0..] == rows;
    for i := 0 to |rows|
      invariant WriteRows(tx.t, rows[i..], i + 1, actor, g) == written
      invariant LoopAccepted(tx.t, rows[i..], i + 1, actor, g)
      invariant db.durable == start
    {
      assert rows[i..][0] == rows[i] && rows[i..][1..] == rows[i + 1..];
      var ok := WriteRow(tx, rows[i], i + 1, actor, g);
      assert ok;
    }
    RowsFrame(start, rows, 1, actor, g);
    NoAuditArtifact(start, rows, actor, g);
    var audited := tx.InsertAudit(Derived(g, GroupAudit), PlanAudit(rows, actor, human, database));
    assert audited && tx.t == Final(start, rows, actor, human, database);
    var acked := db.Commit(tx, ack);
    FinalIsTerminal(start, rows, actor, human, database);
    if Terminal(start, rows, actor, human, database) {
      ReadyIsNotTerminal(start, rows, actor, human, database);
    }
    var terminal := false;
    if reread {
      terminal := VerifyTerminal(db, rows, actor, human, database);
    }
    if !acked {
      return if terminal then Applied else OutcomeUnknown, 0;
    }
    if !terminal {
      return Conflict, 0;
    }
    return Applied, 4 * |rows| + 1;
  }

  /** The written state is exactly what verify_terminal asks for. */
  lemma FinalIsTerminal(t: Tables, rows: seq<PlanRow>, actor: Uuid, human: Uuid, database: string)
    requires PlanShape(rows, human) && InstancesSound(t) && Applicable(t, rows, actor, human, database)
    ensures Terminal(Final(t, rows, actor, human, database), rows, actor, human, database)
  {
    var g := NormalizationGroup(actor, database);
    assert Start(t, rows, actor, human, g);
    StartAccepted(t, rows, actor, human, g);
    RowsFrame(t, rows, 1, actor, g);
    forall k | 0 <= k < |rows| ensures RowTerminal(Final(t, rows, actor, human, database), rows[k], actor, g) {
      assert RowReady(t, rows[k]);
      RowsTerminal(t, rows, 1, k, actor, g);
    }
  }

  /** Preimage and end state exclude each other, so a re-read after a lost commit decides. */
  lemma ReadyIsNotTerminal(t: Tables, rows: seq<PlanRow>, actor: Uuid, human: Uuid, database: string)
    requires Terminal(t, rows, actor, human, database)
    ensures ArtifactCount(t, rows, actor, NormalizationGroup(actor, database)) != 0
    ensures !Applicable(t, rows, actor, human, database)
  {
  }

  /** A second apply, by any commit fate, finds the work done and writes nothing. */
  lemma SecondApplyIsNoop(t: Tables, rows: seq<PlanRow>, actor: Uuid, human: Uuid, database: string, ack: CommitAck)
    requires PlanShape(rows, human) && InstancesSound(t) && Applicable(t, rows, actor, human, database)
    ensures var u := Final(t, rows, actor, human, database);
            Result(u, rows, actor, human, database, ack) == u && Report(u, rows, actor, human, database, ack, true) == Noop
  {
    FinalIsTerminal(t, rows, actor, human, database);
    ReadyIsNotTerminal(Final(t, rows, actor, human, database), rows, actor, human, database);
  }

  /** APPLIED is reported only of a durable end state; with the re-read available it is
      reported of every durable end state the run itself produced. */
  lemma ReportIsSound(t: Tables, rows: seq<PlanRow>, actor: Uuid, human: Uuid, database: string, ack: CommitAck,
      reread: bool)
    requires PlanShape(rows, human) && InstancesSound(t)
    ensures var u := Result(t, rows, actor, human, database, ack);
            var o := Report(t, rows, actor, human, database, ack, reread);
            && (o.Applied? || o.Noop? ==> Terminal(u, rows, actor, human, database))
            && (o.Noop? ==> u == t)
            && (o.Applied? ==> u == Final(t, rows, actor, human, database))
            && (reread && u != t ==> o.Applied?)
            && (o.OutcomeUnknown? && reread ==> u == t)
  {
    if Applicable(t, rows, actor, human, database) {
      FinalIsTerminal(t, rows, actor, human, database);
    }
  }

  // ---------------------------------------------------------------------------
  // What is refused, and what is taken for done, column by column
  // ---------------------------------------------------------------------------

  /** The plan's columns of a row, its open assistance and its collisions, as the tables show them. */
  ghost predicate PreimageHolds(t: Tables, row: PlanRow) {
    && row.workflow in t.instances && row.sourceVisit in t.visits && row.context in t.contexts
    && row.definitionVersion in t.definitions && row.node in t.nodes
    && var i, v, n := t.instances[row.workflow], t.visits[row.sourceVisit], t.nodes[row.node];
       && i.definitionVersion == row.definitionVersion && i.context == Some(row.context) && i.visit == Some(row.sourceVisit)
       && i.version == row.version && !i.cancelled && !i.archived && i.semanticModel == 1
       && v.node == row.node && v.number == row.visitNumber && v.assignee == Some(row.assignee)
       && t.contexts[row.context].digest == row.contextDigest && t.definitions[row.definitionVersion] == row.definitionKey
       && n.definitionVersion == row.definitionVersion && n.key == row.nodeKey && n.kind == row.nodeType
       && row.sourceVisit !in t.openAssistance && row.targetVisit !in t.visits
       && forall w :: w in t.visits ==>
            !(t.visits[w].workflow == row.workflow && t.visits[w].node == row.node && t.visits[w].number == row.visitNumber + 1)
  }

  /** Nothing of what the row would write is there. */
  ghost predicate Untraced(t: Tables, row: PlanRow, actor: Uuid, g: Group) {
    && row.targetVisit !in t.visits && Derived(g, RowCommand(row.workflow)) !in t.receipts
    && (forall c :: c in t.receipts ==> t.receipts[c].principal != actor || t.receipts[c].key != NormalizationKey(g, row.workflow))
    && Slot(row.workflow, row.version + 1) !in t.events
    && (forall s :: s in t.events ==> t.events[s].id != Derived(g, RowEvent(row.workflow))
                                      && t.events[s].command != Some(Derived(g, RowCommand(row.workflow))))
  }

  ghost predicate OperatorsReady(t: Tables, actor: Uuid, human: Uuid) {
    && actor in t.principals && human in t.principals && actor != human
    && t.principals[actor].kind == "AGENT" && t.principals[actor].enabled
    && t.principals[human].kind == "HUMAN" && t.principals[human].enabled
  }

  ghost predicate NothingThere(t: Tables, rows: seq<PlanRow>, actor: Uuid, database: string) {
    var g := NormalizationGroup(actor, database);
    Derived(g, GroupAudit) !in t.audits && forall k :: 0 <= k < |rows| ==> Untraced(t, rows[k], actor, g)
  }

  lemma ArtifactsExactly(t: Tables, rows: seq<PlanRow>, actor: Uuid, database: string)
    ensures ArtifactCount(t, rows, actor, NormalizationGroup(actor, database)) == 0 <==> NothingThere(t, rows, actor, database)
  {
    var g := NormalizationGroup(actor, database);
    if ArtifactCount(t, rows, actor, g) == 0 {
      forall k | 0 <= k < |rows| ensures Untraced(t, rows[k], actor, g) {
        NoArtifacts(t, rows, actor, g, k);
      }
    }
    if NothingThere(t, rows, actor, database) {
      NoneOwned(t, rows, actor, g);
    }
  }

  lemma NoneOwned(t: Tables, rows: seq<PlanRow>, actor: Uuid, g: Group)
    requires forall k :: 0 <= k < |rows| ==> Untraced(t, rows[k], actor, g)
    ensures VisitArtifacts(t, rows) == {} && ReceiptArtifacts(t, rows, actor, g) == {} && EventArtifacts(t, rows, g) == {}
  {
  }

  /** The operator writes exactly if both principals are fit, nothing of it is there yet, and every
      planned column of every row is as planned, without open assistance; for every commit fate. */
  lemma WritesExactly(t: Tables, rows: seq<PlanRow>, actor: Uuid, human: Uuid, database: string, ack: CommitAck,
      reread: bool)
    ensures var fit := OperatorsReady(t, actor, human) && NothingThere(t, rows, actor, database)
                       && forall k :: 0 <= k < |rows| ==> PreimageHolds(t, rows[k]);
            && (Result(t, rows, actor, human, database, ack) != t <==> fit && !ack.LostNotApplied?)
            && (!fit ==> Report(t, rows, actor, human, database, ack, reread) in {Noop, Conflict})
            && (fit ==> Report(t, rows, actor, human, database, ack, reread)
                        == if ack.LostNotApplied? || (ack.LostApplied? && !reread) then OutcomeUnknown else if reread then Applied else Conflict)
  {
    hide WriteRows, ArtifactCount, PlanAudit, Terminal;
    ArtifactsExactly(t, rows, actor, database);
    forall k | 0 <= k < |rows| ensures RowReady(t, rows[k]) <==> PreimageHolds(t, rows[k]) {
      ReadyColumns(t, rows[k]);
    }
    assert Derived(NormalizationGroup(actor, database), GroupAudit) in Final(t, rows, actor, human, database).audits;
  }

  lemma ReadyColumns(t: Tables, row: PlanRow)
    ensures RowReady(t, row) <==> PreimageHolds(t, row)
  {
  }

  /** The guard of the one update, which repeats part of the preimage: no row is written whose
      instance is elsewhere, newer, under another context or definition, cancelled or archived. */
  lemma WriteGuard(t: Tables, row: PlanRow, actor: Uuid, g: Group)
    requires RowAccepted(t, row, actor, g)
    ensures row.workflow in t.instances
    ensures var i := t.instances[row.workflow];
            && i.visit == Some(row.sourceVisit) && i.context == Some(row.context) && i.version == row.version
            && i.definitionVersion == row.definitionVersion && !i.cancelled && !i.archived
    ensures Untraced(t, row, actor, g) && actor in t.principals && row.human in t.principals
  {
  }

  /** One differing column, or one open assistance case, of one row is enough: nothing is written
      and the report says neither applied nor unknown. */
  lemma OneRowRefuses(t: Tables, rows: seq<PlanRow>, k: nat, actor: Uuid, human: Uuid, database: string,
      ack: CommitAck, reread: bool)
    requires k < |rows| && !PreimageHolds(t, rows[k])
    ensures Result(t, rows, actor, human, database, ack) == t
    ensures Report(t, rows, actor, human, database, ack, reread) in {Noop, Conflict}
  {
    WritesExactly(t, rows, actor, human, database, ack, reread);
  }

  /** A row as the operator leaves it: instance, both visits, receipt and event. */
  ghost predicate RowDone(t: Tables, row: PlanRow, actor: Uuid, g: Group) {
    var command, event, slot := Derived(g, RowCommand(row.workflow)), Derived(g, RowEvent(row.workflow)), Slot(row.workflow, row.version + 1);
    && row.workflow in t.instances && row.sourceVisit in t.visits && row.targetVisit in t.visits && row.context in t.contexts
    && row.definitionVersion in t.definitions && row.node in t.nodes && command in t.receipts && slot in t.events
    && var i, v, n, c, e := t.instances[row.workflow], t.visits[row.sourceVisit], t.nodes[row.node], t.receipts[command], t.events[slot];
       && i.definitionVersion == row.definitionVersion && i.context == Some(row.context) && i.visit == Some(row.targetVisit)
       && i.version == row.version + 1 && !i.cancelled && !i.archived && i.semanticModel == 1
       && v.workflow == row.workflow && v.node == row.node && v.number == row.visitNumber && v.assignee == Some(row.assignee)
       && t.visits[row.targetVisit] == Visit(row.workflow, row.node, row.visitNumber + 1, Some(row.human), None)
       && t.contexts[row.context].digest == row.contextDigest && t.definitions[row.definitionVersion] == row.definitionKey
       && n.definitionVersion == row.definitionVersion && n.key == row.nodeKey && n.kind == row.nodeType
       && c.principal == actor && c.key == NormalizationKey(g, row.workflow) && c.commandType == "HUMAN_EXECUTOR_NORMALIZATION_V2"
       && c.request == RowRequest(actor, row.human, row.workflow, row.sourceVisit, row.targetVisit, row.version)
       && c.response == Some((200, RowResponse(command, event, row.workflow, row.targetVisit, row.version + 1)))
       && e.id == event && e.command == Some(command) && e.kind.HumanNormalized? && e.effect == None && e.submission == None
       && e.actor == actor && e.source == Some(row.sourceVisit) && e.target == Some(row.targetVisit) && e.context == Some(row.context)
       && e.fromNode == Some(row.node) && e.toNode == Some(row.node) && e.oldVersion == row.version && e.newVersion == row.version + 1
       && e.kind.normalization.(rowIndex := 0) == NormalizationData(0, row.workflow, row.sourceVisit, row.targetVisit, row.assignee,
                                                                    row.human, row.node, row.version, row.version + 1)
  }

  /** NOOP is reported exactly of tables that show every row done, column by column, and the one
      audit of the plan. */
  lemma NoopExactly(t: Tables, rows: seq<PlanRow>, actor: Uuid, human: Uuid, database: string, ack: CommitAck)
    ensures var g := NormalizationGroup(actor, database);
            Report(t, rows, actor, human, database, ack, true) == Noop
            <==> && OperatorsReady(t, actor, human) && (forall k :: 0 <= k < |rows| ==> RowDone(t, rows[k], actor, g))
                 && Derived(g, GroupAudit) in t.audits
                 && t.audits[Derived(g, GroupAudit)] == Audit(actor, "HUMAN_EXECUTOR_NORMALIZATION_V2_COMMITTED", NormalizationPlan,
                                                              PlanDetails(database, human, |rows|))
  {
    hide ArtifactCount, RowReady, RowTerminal, RowDone;
    var g := NormalizationGroup(actor, database);
    ArtifactsExactly(t, rows, actor, database);
    forall k | 0 <= k < |rows| ensures RowTerminal(t, rows[k], actor, g) <==> RowDone(t, rows[k], actor, g) {
      TerminalColumns(t, rows[k], actor, g);
    }
  }

  lemma TerminalColumns(t: Tables, row: PlanRow, actor: Uuid, g: Group)
    ensures RowTerminal(t, row, actor, g) <==> RowDone(t, row, actor, g)
  {
  }

  /** A whole apply, with any commit fate, keeps the schema, the exactness of every log, and
      the history. */
  lemma ResultKeepsLog(t: Tables, rows: seq<PlanRow>, actor: Uuid, human: Uuid, database: string, ack: CommitAck)
    requires PlanShape(rows, human) && Sound(t) && AllExact(t)
    ensures var u := Result(t, rows, actor, human, database, ack);
            Sound(u) && AllExact(u) && HistoryKept(t, u)
  {
    hide RowAccepted, RowWritten, RowReady, ArtifactCount, PrincipalsReady, PlanShape, Sound, AllExact, HistoryKept,
         LoopAccepted, WriteRows, PlanAudit;
    HistoryKeptReflexive(t);
    if Applicable(t, rows, actor, human, database) {
      var g := NormalizationGroup(actor, database);
      StartAccepted(t, rows, actor, human, g);
      RowsKeepLog(t, rows, 1, actor, g);
      RowsFrame(t, rows, 1, actor, g);
      NoAuditArtifact(t, rows, actor, g);
      AuditKeepsLog(WriteRows(t, rows, 1, actor, g), Derived(g, GroupAudit), PlanAudit(rows, actor, human, database));
      HistoryKeptTransitive(t, WriteRows(t, rows, 1, actor, g), Final(t, rows, actor, human, database));
    }
  }

  lemma NoAuditArtifact(t: Tables, rows: seq<PlanRow>, actor: Uuid, g: Group)
    requires ArtifactCount(t, rows, actor, g) == 0
    ensures Derived(g, GroupAudit) !in t.audits
  {
  }

  /** Exactly which instances recovery can still rebuild after a committed apply: those it
      could rebuild before, minus every instance of the plan. */
  lemma RebuildableAfterApply(t: Tables, rows: seq<PlanRow>, actor: Uuid, human: Uuid, database: string,
      manifest: seq<PairId>, w: Uuid)
    requires PlanShape(rows, human) && InstancesSound(t) && Applicable(t, rows, actor, human, database) && w in t.instances
    ensures var u := Final(t, rows, actor, human, database);
            && w in u.instances
            && (Rebuildable(u, manifest, w) <==> Rebuildable(t, manifest, w) && forall k :: 0 <= k < |rows| ==> rows[k].workflow != w)
  {
    hide RowAccepted, RowWritten, RowReady, ArtifactCount, PrincipalsReady, PlanShape, Rebuildable, Untouched,
         LoopAccepted, WriteRows, PlanAudit;
    var g := NormalizationGroup(actor, database);
    var v, u := WriteRows(t, rows, 1, actor, g), Final(t, rows, actor, human, database);
    StartAccepted(t, rows, actor, human, g);
    RowsFrame(t, rows, 1, actor, g);
    RowsCount(t, rows, 1, actor, g);
    if k :| 0 <= k < |rows| && rows[k].workflow == w {
      FinalIsTerminal(t, rows, actor, human, database);
      TerminalNotRebuildable(u, rows[k], actor, g, manifest);
    } else {
      OthersUntouched(t, rows, 1, w, actor, g);
      AuditUntouched(v, Derived(g, GroupAudit), PlanAudit(rows, actor, human, database), w);
      UntouchedTransitive(t, v, u, w);
      UntouchedRebuildable(t, u, manifest, w);
    }
  }

  lemma AuditUntouched(t: Tables, id: Uuid, a: Audit, w: Uuid)
    ensures Untouched(t, t.(audits := t.audits[id := a]), w)
  {
  }

  lemma TerminalNotRebuildable(t: Tables, row: PlanRow, actor: Uuid, g: Group, manifest: seq<PairId>)
    requires RowTerminal(t, row, actor, g)
    ensures !Rebuildable(t, manifest, row.workflow)
  {
    if row.version + 1 >= 1 {
      NormalizedLogRejected(t, manifest, row.workflow, row.version + 1, row.version + 1);
    }
  }
}
