/** The identity repair operator: append one lineage line per stale source principal, bound to
    a plan hash, in one transaction. */
module IdentityRepair {
  import opened Identifiers
  import opened Ledger
  import opened Store

  const CLASSIFICATIONS := {"STALE_PRINCIPAL_WITH_UNIQUE_REPAIR", "MECHANICALLY_PROVEN_SUCCESSOR"}

  datatype Json = JsonObject(text: string) | OtherJson(text: string)

  datatype Pair = Pair(
    source: Uuid, successor: Uuid, legacyAgent: string, canonicalAgent: string,
    classification: string, evidence: Json, reason: string)

  /** A row of workflow_identity_successor_lines; the table is keyed by its unique source. */
  datatype Line = Line(successor: Uuid, legacyAgent: string, canonicalAgent: string, classification: string, evidence: Json, reason: string)

  type Lines = map<Uuid, Line>

  datatype State = State(tables: Tables, lines: Lines)

  // ---------------------------------------------------------------------------
  // Pair validation
  // ---------------------------------------------------------------------------

  predicate AgentChar(c: char) {
    'a' <= c <= 'z' || 'A' <= c <= 'Z' || '0' <= c <= '9' || c == '_' || c == '-'
  }

  predicate CanonicalAgentIdValid(id: string) {
    |id| > 4 && id[..4] == "agt_" && forall k :: 4 <= k < |id| ==> AgentChar(id[k])
  }

  /** The documented grammar ^agt_[A-Za-z0-9_-]+$. */
  lemma GrammarExactly(id: string)
    ensures CanonicalAgentIdValid(id) <==> exists body: string :: body != "" && id == "agt_" + body && forall c :: c in body ==> AgentChar(c)
    ensures forall c :: AgentChar(c)
              <==> var n := c as int; 48 <= n <= 57 || 65 <= n <= 90 || 97 <= n <= 122 || n == 45 || n == 95
  {
    if CanonicalAgentIdValid(id) {
      var body := id[4..];
      assert id == "agt_" + body && forall k :: 0 <= k < |body| ==> body[k] == id[k + 4];
    }
    if body: string :| body != "" && id == "agt_" + body && forall c :: c in body ==> AgentChar(c) {
      assert id[..4] == "agt_" && forall k :: 4 <= k < |id| ==> id[k] == body[k - 4];
    }
  }

  /** Unicode White_Space, which str::trim removes. */
  predicate Space(c: char) {
    var n := c as int;
    || 0x9 <= n <= 0xD || n == 0x20 || n == 0x85 || n == 0xA0 || n == 0x1680 || 0x2000 <= n <= 0x200A
    || n == 0x2028 || n == 0x2029 || n == 0x202F || n == 0x205F || n == 0x3000
  }

  predicate Blank(s: string) {
    forall k :: 0 <= k < |s| ==> Space(s[k])
  }

  predicate PairShape(p: Pair) {
    && p.source != p.successor && CanonicalAgentIdValid(p.canonicalAgent) && p.classification in CLASSIFICATIONS
    && p.legacyAgent != "" && !Blank(p.reason) && p.evidence.JsonObject?
  }

  /** Which pairs a reviewed file may contain: the 25 blank characters alone are no reason. */
  lemma PairShapeExactly(p: Pair)
    ensures PairShape(p)
       <==> && p.source != p.successor && CanonicalAgentIdValid(p.canonicalAgent) && p.legacyAgent != "" && p.evidence.JsonObject?
            && (p.classification == "STALE_PRINCIPAL_WITH_UNIQUE_REPAIR" || p.classification == "MECHANICALLY_PROVEN_SUCCESSOR")
            && exists c :: c in p.reason
                 && c as int !in {9, 10, 11, 12, 13, 32, 133, 160, 5760, 8192, 8193, 8194, 8195, 8196, 8197, 8198, 8199, 8200, 8201, 8202,
                                  8232, 8233, 8239, 8287, 12288}
  {
    hide CanonicalAgentIdValid;
    if !Blank(p.reason) {
      var k :| 0 <= k < |p.reason| && !Space(p.reason[k]);
      assert p.reason[k] in p.reason;
    }
  }

  ghost predicate SourcesDistinct(pairs: seq<Pair>) {
    forall j, k :: 0 <= j < k < |pairs| ==> pairs[j].source != pairs[k].source
  }

  /** One repair never claims a successor under two canonical ids. */
  ghost predicate ClaimsAgree(pairs: seq<Pair>) {
    forall j, k :: 0 <= j < |pairs| && 0 <= k < |pairs| && pairs[j].successor == pairs[k].successor ==>
      pairs[j].canonicalAgent == pairs[k].canonicalAgent
  }

  /** The declarative meaning of a reviewed pairs file. */
  ghost predicate PairsValid(pairs: seq<Pair>) {
    && pairs != [] && (forall k :: 0 <= k < |pairs| ==> PairShape(pairs[k]))
    && SourcesDistinct(pairs) && ClaimsAgree(pairs)
  }

  method CheckShapes(pairs: seq<Pair>) returns (ok: bool)
    ensures ok <==> (forall k :: 0 <= k < |pairs| ==> PairShape(pairs[k])) && SourcesDistinct(pairs)
  {
    hide PairShape;
    var sources: set<Uuid> := {};
    for i := 0 to |pairs|
      invariant forall k :: 0 <= k < i ==> PairShape(pairs[k]) && pairs[k].source in sources
      invariant forall s :: s in sources ==> exists k :: 0 <= k < i && pairs[k].source == s
      invariant forall j, k :: 0 <= j < k < i ==> pairs[j].source != pairs[k].source
    {
      if !PairShape(pairs[i]) || pairs[i].source in sources {
        return false;
      }
      sources := sources + {pairs[i].source};
    }
    return true;
  }

  method CheckClaims(pairs: seq<Pair>) returns (ok: bool)
    ensures ok <==> ClaimsAgree(pairs)
  {
    var claims: map<Uuid, string> := map[];
    for i := 0 to |pairs|
      invariant forall s :: s in claims ==> exists k :: 0 <= k < i && pairs[k].successor == s
      invariant forall k :: 0 <= k < i ==> pairs[k].successor in claims && claims[pairs[k].successor] == pairs[k].canonicalAgent
    {
      var p := pairs[i];
      if p.successor in claims && claims[p.successor] != p.canonicalAgent {
        return false;
      }
      claims := claims[p.successor := p.canonicalAgent];
    }
    return true;
  }

  /** The two loops over a growing set and a growing map decide exactly the declarative spec. */
  method ValidatePairs(pairs: seq<Pair>) returns (ok: bool)
    ensures ok <==> PairsValid(pairs)
  {
    if pairs == [] {
      return false;
    }
    ok := CheckShapes(pairs);
    if ok {
      ok := CheckClaims(pairs);
    }
  }

  // ---------------------------------------------------------------------------
  // Observation
  // ---------------------------------------------------------------------------

  predicate Matches(l: Line, p: Pair) {
    l.successor == p.successor && l.legacyAgent == p.legacyAgent && l.canonicalAgent == p.canonicalAgent && l.classification == p.classification
  }

  /** Every distinct canonical id under which existing lines claim this successor. */
  function ClaimsOn(lines: Lines, successor: Uuid): set<string> {
    set s | s in lines && lines[s].successor == successor :: lines[s].canonicalAgent
  }

  function Assignments(t: Tables, source: Uuid): set<Uuid> {
    set v | v in t.visits && t.visits[v].assignee == Some(source)
  }

  function Actionable(t: Tables, source: Uuid): set<Uuid> {
    set v | v in Assignments(t, source) && t.visits[v].workflow in t.instances
            && !t.instances[t.visits[v].workflow].cancelled && !t.instances[t.visits[v].workflow].archived
  }

  datatype Reason = SourceMissing | SuccessorMissing | SuccessorDisabled | SuccessorNotAgent(kind: string) | LineDiffers(line: Line) | Ambiguous(claimed: set<string>)

  function Foreign(st: State, p: Pair): set<string> {
    ClaimsOn(st.lines, p.successor) - {p.canonicalAgent}
  }

  /** The conflicts pushed for a pair, in the order of the checks. */
  function Conflicts(st: State, p: Pair): seq<Reason> {
    var ps := st.tables.principals;
    (if p.source !in ps then [SourceMissing] else [])
    + (if p.successor !in ps then [SuccessorMissing]
       else (if !ps[p.successor].enabled then [SuccessorDisabled] else [])
            + (if ps[p.successor].kind != AGENT then [SuccessorNotAgent(ps[p.successor].kind)] else []))
    + (if p.source in st.lines && !Matches(st.lines[p.source], p) then [LineDiffers(st.lines[p.source])] else [])
    + (if Foreign(st, p) != {} then [Ambiguous(Foreign(st, p))] else [])
  }

  predicate AlreadyExists(st: State, p: Pair) {
    p.source in st.lines && Matches(st.lines[p.source], p)
  }

  datatype PairOutcome = CONFLICT | NOOP | PLANNED

  function OutcomeOf(st: State, p: Pair): PairOutcome {
    if Conflicts(st, p) != [] then CONFLICT else if AlreadyExists(st, p) then NOOP else PLANNED
  }

  datatype Entry = Entry(pair: Pair, alreadyExists: bool, assignments: nat, actionable: nat, outcome: PairOutcome, conflicts: seq<Reason>)

  function EntryOf(st: State, p: Pair): Entry {
    Entry(p, AlreadyExists(st, p), |Assignments(st.tables, p.source)|, |Actionable(st.tables, p.source)|, OutcomeOf(st, p), Conflicts(st, p))
  }

  datatype Summary = Summary(
    pairCount: nat, assignments: nat, actionable: nat, ambiguity: nat, conflicts: nat, alreadyExists: nat, plannedInserts: nat)

  /** How the database orders and prints UUIDs. */
  datatype Rendering = Rendering(order: seq<Uuid>, show: Uuid -> string)

  /** The fields of a row joined by bars; nothing in them is escaped. */
  function RowText(r: Rendering, source: Uuid, l: Line): string {
    r.show(source) + "|" + r.show(l.successor) + "|" + l.legacyAgent + "|" + l.canonicalAgent + "|" + l.classification + "|"
    + l.evidence.text + "|" + l.reason
  }

  /** string_agg of the rows at `sources`, joined by newlines. */
  function JoinedText(r: Rendering, lines: Lines, sources: seq<Uuid>): string {
    if sources == [] then ""
    else
      var rest := JoinedText(r, lines, sources[1..]);
      if sources[0] !in lines then rest
      else RowText(r, sources[0], lines[sources[0]]) + (if rest == "" then "" else "\n" + rest)
  }

  /** The text under the digest of all existing lines, in the order of their sources. */
  function UnrelatedText(r: Rendering, lines: Lines): string {
    JoinedText(r, lines, r.order)
  }

  /** The plan document.  Entries are sorted by their unique source, so a map stands for them;
      md5 is taken to be injective on texts, so the joined text of the lines stands for it. */
  datatype Doc = Doc(pairsFile: string, entries: map<Uuid, Entry>, summary: Summary, unrelated: string)

  datatype PlanHash = Malformed | Unmatched | HashOf(doc: Doc)

  function Entries(st: State, pairs: seq<Pair>): map<Uuid, Entry>
    decreases |pairs|
  {
    if pairs == [] then map[] else Entries(st, pairs[..|pairs| - 1])[pairs[|pairs| - 1].source := EntryOf(st, pairs[|pairs| - 1])]
  }

  /** How many pairs have a given outcome. */
  function CountOutcome(st: State, pairs: seq<Pair>, o: PairOutcome): nat {
    if pairs == [] then 0
    else CountOutcome(st, pairs[..|pairs| - 1], o) + (if OutcomeOf(st, pairs[|pairs| - 1]) == o then 1 else 0)
  }

  datatype Census = AssignmentCensus | ActionableCensus | AmbiguityCensus

  function Measure(st: State, p: Pair, c: Census): nat {
    match c
    case AssignmentCensus => |Assignments(st.tables, p.source)|
    case ActionableCensus => |Actionable(st.tables, p.source)|
    case AmbiguityCensus => |Foreign(st, p)|
  }

  function Total(st: State, pairs: seq<Pair>, c: Census): nat {
    if pairs == [] then 0 else Total(st, pairs[..|pairs| - 1], c) + Measure(st, pairs[|pairs| - 1], c)
  }

  function DocOf(r: Rendering, st: State, pairs: seq<Pair>, file: string): Doc {
    Doc(file, Entries(st, pairs),
        Summary(|pairs|,
                Total(st, pairs, AssignmentCensus),
                Total(st, pairs, ActionableCensus),
                Total(st, pairs, AmbiguityCensus),
                CountOutcome(st, pairs, CONFLICT), CountOutcome(st, pairs, NOOP), CountOutcome(st, pairs, PLANNED)),
        UnrelatedText(r, st.lines))
  }

  function SaturatingSub(a: nat, b: nat): nat {
    if a < b then 0 else a - b
  }

  lemma {:induction false} OutcomesAddUp(st: State, pairs: seq<Pair>)
    ensures CountOutcome(st, pairs, CONFLICT) + CountOutcome(st, pairs, NOOP) + CountOutcome(st, pairs, PLANNED) == |pairs|
  {
    if pairs != [] {
      OutcomesAddUp(st, pairs[..|pairs| - 1]);
    }
  }

  /** observe_tx's loop and counters.  The planned-insert count is computed by saturating
      subtraction in the source; it is exactly the number of PLANNED pairs. */
  method Observe(r: Rendering, st: State, pairs: seq<Pair>, file: string) returns (doc: Doc)
    ensures doc == DocOf(r, st, pairs, file)
  {
    hide Conflicts, AlreadyExists, Foreign, Assignments, Actionable;
    var entries: map<Uuid, Entry> := map[];
    var assignments, actionable, ambiguity, conflictCount, alreadyExists := 0, 0, 0, 0, 0;
    for i := 0 to |pairs|
      invariant entries == Entries(st, pairs[..i])
      invariant assignments == Total(st, pairs[..i], AssignmentCensus)
      invariant actionable == Total(st, pairs[..i], ActionableCensus)
      invariant ambiguity == Total(st, pairs[..i], AmbiguityCensus)
      invariant conflictCount == CountOutcome(st, pairs[..i], CONFLICT) && alreadyExists == CountOutcome(st, pairs[..i], NOOP)
    {
      assert pairs[..i + 1][..i] == pairs[..i];
      var p := pairs[i];
      var entry := EntryOf(st, p);
      assignments := assignments + entry.assignments;
      actionable := actionable + entry.actionable;
      ambiguity := ambiguity + |Foreign(st, p)|;
      if entry.conflicts == [] {
        if entry.alreadyExists {
          alreadyExists := alreadyExists + 1;
        }
      } else {
        conflictCount := conflictCount + 1;
      }
      entries := entries[p.source := entry];
    }
    assert pairs[..|pairs|] == pairs;
    OutcomesAddUp(st, pairs);
    var writeCount := SaturatingSub(SaturatingSub(|pairs|, alreadyExists), if conflictCount < |pairs| then conflictCount else |pairs|);
    doc := Doc(file, entries, Summary(|pairs|, assignments, actionable, ambiguity, conflictCount, alreadyExists, writeCount),
               UnrelatedText(r, st.lines));
  }

  lemma {:induction false} NoConflicts(st: State, pairs: seq<Pair>)
    ensures CountOutcome(st, pairs, CONFLICT) == 0 <==> forall p :: p in pairs ==> Conflicts(st, p) == []
    decreases |pairs|
  {
    if pairs != [] {
      var init, last := pairs[..|pairs| - 1], pairs[|pairs| - 1];
      assert pairs == init + [last];
      NoConflicts(st, init);
    }
  }

  /** An ambiguity is always also counted as a conflict. */
  lemma {:induction false} AmbiguityConflicts(st: State, pairs: seq<Pair>)
    requires CountOutcome(st, pairs, CONFLICT) == 0
    ensures Total(st, pairs, AmbiguityCensus) == 0
    decreases |pairs|
  {
    if pairs != [] {
      AmbiguityConflicts(st, pairs[..|pairs| - 1]);
      NoConflicts(st, pairs);
      assert Conflicts(st, pairs[|pairs| - 1]) == [];
    }
  }

  // ---------------------------------------------------------------------------
  // Terminal state
  // ---------------------------------------------------------------------------

  /** The read-path projection of one visit assigned to `source`. */
  function Resolved(lines: Lines, source: Uuid): Option<string> {
    if source in lines then Some(lines[source].canonicalAgent) else None
  }

  predicate Terminal(st: State, pairs: seq<Pair>) {
    forall p :: p in pairs ==> AlreadyExists(st, p)
  }

  /** terminal_exact: row identity, then the projection of every visit of the source.  The
      projection proof cannot fail once the row is identical. */
  method TerminalExact(st: State, pairs: seq<Pair>) returns (ok: bool)
    ensures ok <==> Terminal(st, pairs)
    ensures ok <==> forall k :: 0 <= k < |pairs| ==> LineThere(st.lines, pairs[k])
  {
    ok := true;
    for i := 0 to |pairs|
      invariant ok <==> forall k :: 0 <= k < i ==> AlreadyExists(st, pairs[k])
    {
      var p := pairs[i];
      if AlreadyExists(st, p) {
        var visits := Assignments(st.tables, p.source);
        while visits != {}
          invariant ok <==> forall k :: 0 <= k < i ==> AlreadyExists(st, pairs[k])
          decreases |visits|
        {
          var v :| v in visits;
          if Resolved(st.lines, p.source) != Some(p.canonicalAgent) {
            ok := false;
          }
          visits := visits - {v};
        }
      } else {
        ok := false;
      }
    }
    ProbeExactly(st, pairs);
  }

  /** resolve_current_principal: at most one lineage edge. */
  function ResolveCurrent(st: State, source: Uuid): Option<Uuid> {
    if source !in st.tables.principals then None
    else if source in st.lines then Some(st.lines[source].successor)
    else Some(source)
  }

  method Verify(st: State, pairs: seq<Pair>, hash: PlanHash) returns (ok: bool)
    requires PairsValid(pairs)
    ensures ok <==> !hash.Malformed? && Terminal(st, pairs) && forall p :: p in pairs ==> p.source in st.tables.principals
  {
    if hash.Malformed? {
      return false;
    }
    for i := 0 to |pairs|
      invariant forall k :: 0 <= k < i ==> ResolveCurrent(st, pairs[k].source) == Some(pairs[k].successor)
    {
      if ResolveCurrent(st, pairs[i].source) != Some(pairs[i].successor) {
        assert pairs[i] in pairs;
        return false;
      }
    }
    ok := TerminalExact(st, pairs);
  }

  // ---------------------------------------------------------------------------
  // Apply
  // ---------------------------------------------------------------------------

  datatype Report = Rejected | AlreadyDone(skipped: nat) | Applied(inserted: nat, skipped: nat) | OutcomeUnknown

  class LineageDatabase {
    var state: State

    constructor (start: State)
      ensures state == start
    {
      state := start;
    }

    /** Other sessions commit. */
    method Elsewhere(now: State)
      modifies this
      ensures state == now
    {
      state := now;
    }

    method Commit(lines: Lines, ack: CommitAck) returns (ok: bool)
      modifies this
      ensures ok <==> ack.Acked?
      ensures state == if ack.LostNotApplied? then old(state) else old(state).(lines := lines)
    {
      if !ack.LostNotApplied? {
        state := state.(lines := lines);
      }
      ok := ack.Acked?;
    }
  }

  function LineOf(p: Pair): Line {
    Line(p.successor, p.legacyAgent, p.canonicalAgent, p.classification, p.evidence, p.reason)
  }

  /** The lines after the first `n` pairs: one new line per source that had none, nothing else. */
  ghost predicate LinesUpTo(st: State, pairs: seq<Pair>, n: nat, after: Lines) {
    && (forall s :: s in st.lines ==> s in after && after[s] == st.lines[s])
    && (forall k :: 0 <= k < n && k < |pairs| && pairs[k].source !in st.lines ==> pairs[k].source in after && after[pairs[k].source] == LineOf(pairs[k]))
    && (forall s :: s in after ==> s in st.lines || exists k :: 0 <= k < n && k < |pairs| && pairs[k].source == s)
  }

  ghost predicate LinesAfter(st: State, pairs: seq<Pair>, after: Lines) {
    LinesUpTo(st, pairs, |pairs|, after)
  }

  /** The insert loop; `done` is false if it meets one of its conflict branches. */
  method InsertLines(st: State, pairs: seq<Pair>) returns (lines: Lines, done: bool, inserted: nat, skipped: nat)
    requires SourcesDistinct(pairs) && forall k :: 0 <= k < |pairs| ==> Conflicts(st, pairs[k]) == []
    ensures done && LinesAfter(st, pairs, lines) && |lines| == |st.lines| + inserted
    ensures inserted == CountOutcome(st, pairs, PLANNED) && skipped == CountOutcome(st, pairs, NOOP)
  {
    hide LinesUpTo, Conflicts, SourcesDistinct, Foreign, LineOf;
    lines, inserted, skipped := st.lines, 0, 0;
    NothingInserted(st, pairs);
    assert pairs[..|pairs|] == pairs;
    for i := 0 to |pairs|
      invariant LinesUpTo(st, pairs, i, lines) && |lines| == |st.lines| + inserted
      invariant inserted == CountOutcome(st, pairs[..i], PLANNED) && skipped == CountOutcome(st, pairs[..i], NOOP)
    {
      var p := pairs[i];
      assert pairs[..i + 1][..i] == pairs[..i] && pairs[..i + 1][i] == p;
      assert Conflicts(st, p) == [];
      Unconflicted(st, p);
      NotYetInserted(st, pairs, i, lines);
      if p.source in lines {
        if !Matches(lines[p.source], p) {
          return lines, false, inserted, skipped;
        }
        LinesSkipped(st, pairs, i, lines);
        skipped := skipped + 1;
      } else {
        if p.source !in st.tables.principals || p.successor !in st.tables.principals {
          return lines, false, inserted, skipped;
        }
        LinesInserted(st, pairs, i, lines);
        lines := lines[p.source := LineOf(p)];
        inserted := inserted + 1;
      }
    }
    done := true;
  }

  lemma NothingInserted(st: State, pairs: seq<Pair>)
    ensures LinesUpTo(st, pairs, 0, st.lines)
  {
  }

  /** What a pair without conflicts is. */
  lemma Unconflicted(st: State, p: Pair)
    ensures Conflicts(st, p) == []
       <==> && p.source in st.tables.principals && p.successor in st.tables.principals
            && st.tables.principals[p.successor].enabled && st.tables.principals[p.successor].kind == AGENT
            && (p.source in st.lines ==> Matches(st.lines[p.source], p))
            && forall s :: s in st.lines && st.lines[s].successor == p.successor ==> st.lines[s].canonicalAgent == p.canonicalAgent
  {
    if Foreign(st, p) != {} {
      var c :| c in Foreign(st, p);
      assert c in ClaimsOn(st.lines, p.successor);
    }
    forall s | s in st.lines && st.lines[s].successor == p.successor && st.lines[s].canonicalAgent != p.canonicalAgent
      ensures Foreign(st, p) != {}
    {
      assert st.lines[s].canonicalAgent in ClaimsOn(st.lines, p.successor);
      assert st.lines[s].canonicalAgent in Foreign(st, p);
    }
  }

  /** Distinct sources: no earlier pair touched this one's line. */
  lemma NotYetInserted(st: State, pairs: seq<Pair>, i: nat, lines: Lines)
    requires SourcesDistinct(pairs) && i < |pairs| && LinesUpTo(st, pairs, i, lines)
    ensures pairs[i].source in lines <==> pairs[i].source in st.lines
    ensures pairs[i].source in lines ==> lines[pairs[i].source] == st.lines[pairs[i].source]
  {
  }

  lemma LinesSkipped(st: State, pairs: seq<Pair>, i: nat, lines: Lines)
    requires i < |pairs| && LinesUpTo(st, pairs, i, lines) && pairs[i].source in st.lines
    ensures LinesUpTo(st, pairs, i + 1, lines)
  {
  }

  lemma LinesInserted(st: State, pairs: seq<Pair>, i: nat, lines: Lines)
    requires i < |pairs| && LinesUpTo(st, pairs, i, lines) && pairs[i].source !in lines
    ensures LinesUpTo(st, pairs, i + 1, lines[pairs[i].source := LineOf(pairs[i])])
  {
    assert pairs[i].source !in st.lines;
    var after := lines[pairs[i].source := LineOf(pairs[i])];
    forall s | s in after ensures s in st.lines || exists k :: 0 <= k < i + 1 && k < |pairs| && pairs[k].source == s {
      if s != pairs[i].source && s !in st.lines {
        var k :| 0 <= k < i && k < |pairs| && pairs[k].source == s;
        assert k < i + 1;
      }
    }
  }

  /** The postcondition query inside the transaction. */
  method PostconditionHolds(lines: Lines, pairs: seq<Pair>) returns (ok: bool)
    ensures ok <==> forall k :: 0 <= k < |pairs| ==> pairs[k].source in lines && Matches(lines[pairs[k].source], pairs[k])
  {
    for i := 0 to |pairs|
      invariant forall k :: 0 <= k < i ==> pairs[k].source in lines && Matches(lines[pairs[k].source], pairs[k])
    {
      if pairs[i].source !in lines || !Matches(lines[pairs[i].source], pairs[i]) {
        return false;
      }
    }
    return true;
  }

  /** The plan hash matches what is observed now, which shows no conflict. */
  predicate Approved(r: Rendering, st: State, pairs: seq<Pair>, file: string, hash: PlanHash) {
    hash == HashOf(DocOf(r, st, pairs, file)) && CountOutcome(st, pairs, CONFLICT) == 0
  }

  /** How the transaction changes the state it finds: not at all, or by exactly the planned lines. */
  ghost predicate AppliesTo(r: Rendering, st: State, u: State, pairs: seq<Pair>, file: string, hash: PlanHash,
      ack: CommitAck) {
    if Approved(r, st, pairs, file, hash) && !ack.LostNotApplied?
    then u.tables == st.tables && LinesAfter(st, pairs, u.lines) && |u.lines| == |st.lines| + CountOutcome(st, pairs, PLANNED)
    else u == st
  }

  /** An apply reads the database three times before it writes, each in a transaction of its own:
      the terminal probe, the observation, and the transaction that writes. */
  datatype View = View(probed: State, observed: State, locked: State)

  predicate Reaches(r: Rendering, v: View, pairs: seq<Pair>, file: string, hash: PlanHash) {
    !hash.Malformed? && !Terminal(v.probed, pairs) && Approved(r, v.observed, pairs, file, hash)
  }

  /** The last state the apply read, before its own change. */
  function LastRead(r: Rendering, v: View, pairs: seq<Pair>, file: string, hash: PlanHash): State {
    if hash.Malformed? || Terminal(v.probed, pairs) then v.probed
    else if !Approved(r, v.observed, pairs, file, hash) then v.observed
    else v.locked
  }

  ghost predicate Leaves(r: Rendering, v: View, u: State, pairs: seq<Pair>, file: string, hash: PlanHash,
      ack: CommitAck) {
    if Reaches(r, v, pairs, file, hash) then AppliesTo(r, v.locked, u, pairs, file, hash, ack)
    else u == LastRead(r, v, pairs, file, hash)
  }

  function ReportOf(r: Rendering, v: View, pairs: seq<Pair>, file: string, hash: PlanHash, ack: CommitAck,
      reread: bool): Report {
    if hash.Malformed? then Rejected
    else if Terminal(v.probed, pairs) then AlreadyDone(|pairs|)
    else if !Approved(r, v.observed, pairs, file, hash) || !Approved(r, v.locked, pairs, file, hash) then Rejected
    else if reread && (!ack.LostNotApplied? || Terminal(v.locked, pairs)) then
      Applied(CountOutcome(v.locked, pairs, PLANNED), CountOutcome(v.locked, pairs, NOOP))
    else if reread || ack.Acked? then Rejected
    else OutcomeUnknown
  }

  /** observe, and the refusals that follow it. */
  method CheckPlan(r: Rendering, st: State, pairs: seq<Pair>, file: string, hash: PlanHash) returns (ok: bool)
    requires !hash.Malformed?
    ensures ok <==> Approved(r, st, pairs, file, hash)
  {
    hide Conflicts, Foreign;
    var doc := Observe(r, st, pairs, file);
    if doc.summary.conflicts == 0 {
      AmbiguityConflicts(st, pairs);
    }
    return hash == HashOf(doc) && doc.summary.conflicts == 0 && doc.summary.ambiguity == 0;
  }

  /** `observed` and `locked` are the states other sessions leave before the observation and
      before the transaction; `reread` says whether the terminal re-read can be made. */
  method Apply(r: Rendering, db: LineageDatabase, pairs: seq<Pair>, file: string, hash: PlanHash,
      observed: State, locked: State, ack: CommitAck, reread: bool) returns (report: Report)
    requires PairsValid(pairs)
    modifies db
    ensures Leaves(r, View(old(db.state), observed, locked), db.state, pairs, file, hash, ack)
    ensures report == ReportOf(r, View(old(db.state), observed, locked), pairs, file, hash, ack, reread)
    ensures report.AlreadyDone? <==> !hash.Malformed? && forall k :: 0 <= k < |pairs| ==> LineThere(old(db.state).lines, pairs[k])
  {
    hide Conflicts, LinesUpTo, Matches, CountOutcome, PairShape, SourcesDistinct, ClaimsAgree, DocOf;
    if hash.Malformed? {
      return Rejected;
    }
    var terminal := TerminalExact(db.state, pairs);
    if terminal {
      return AlreadyDone(|pairs|);
    }
    db.Elsewhere(observed);
    var ok := CheckPlan(r, db.state, pairs, file, hash);
    if !ok {
      return Rejected;
    }
    db.Elsewhere(locked);
    ok := CheckPlan(r, db.state, pairs, file, hash);
    if !ok {
      return Rejected;
    }
    NoConflicts(locked, pairs);
    var lines, done, inserted, skipped := InsertLines(db.state, pairs);
    assert done;
    forall p | p in pairs ensures AlreadyExists(State(locked.tables, lines), p) {
      LinesMatch(locked, pairs, lines, p);
    }
    assert forall k :: 0 <= k < |pairs| ==> pairs[k] in pairs && AlreadyExists(State(locked.tables, lines), pairs[k]);
    var present := PostconditionHolds(lines, pairs);
    if !present {
      return Rejected;
    }
    var acked := db.Commit(lines, ack);
    terminal := false;
    if reread {
      terminal := TerminalExact(db.state, pairs);
    }
    if terminal {
      return Applied(inserted, skipped);
    }
    return if acked || reread then Rejected else OutcomeUnknown;
  }

  /** The postcondition check inside the transaction: every planned line is exactly present. */
  lemma LinesMatch(st: State, pairs: seq<Pair>, after: Lines, p: Pair)
    requires LinesAfter(st, pairs, after) && p in pairs && Conflicts(st, p) == []
    ensures p.source in after && Matches(after[p.source], p)
  {
    var k :| 0 <= k < |pairs| && pairs[k] == p;
    if p.source in st.lines {
      assert after[p.source] == st.lines[p.source];
    }
  }

  // ---------------------------------------------------------------------------
  // What a plan promises and what a report means
  // ---------------------------------------------------------------------------

  /** The plan predicts the apply: the three counts add up to the pairs, and an approved
      transaction inserts exactly the planned number of lines and skips exactly the existing ones,
      as counted by the plan whose hash approved it. */
  lemma PlanPredictsApply(r: Rendering, seen: State, v: View, u: State, pairs: seq<Pair>, file: string, ack: CommitAck)
    requires PairsValid(pairs) && Leaves(r, v, u, pairs, file, HashOf(DocOf(r, seen, pairs, file)), ack)
    ensures var hash, s := HashOf(DocOf(r, seen, pairs, file)), DocOf(r, seen, pairs, file).summary;
            && s.conflicts + s.alreadyExists + s.plannedInserts == s.pairCount == |pairs|
            && (u != LastRead(r, v, pairs, file, hash) ==>
                  s.conflicts == 0 && s.ambiguity == 0 && |u.lines| == |v.locked.lines| + s.plannedInserts
                  && ReportOf(r, v, pairs, file, hash, ack, true) == Applied(s.plannedInserts, s.alreadyExists))
  {
    OutcomesAddUp(seen, pairs);
    var hash := HashOf(DocOf(r, seen, pairs, file));
    if u != LastRead(r, v, pairs, file, hash) {
      AmbiguityConflicts(v.locked, pairs);
      assert DocOf(r, seen, pairs, file).summary == DocOf(r, v.locked, pairs, file).summary;
    }
  }

  lemma {:induction false} EntryFound(st: State, pairs: seq<Pair>, k: nat)
    requires SourcesDistinct(pairs) && k < |pairs|
    ensures pairs[k].source in Entries(st, pairs) && Entries(st, pairs)[pairs[k].source] == EntryOf(st, pairs[k])
    decreases |pairs|
  {
    var init := pairs[..|pairs| - 1];
    if k < |init| {
      EntryFound(st, init, k);
      assert init[k] == pairs[k];
    }
  }

  ghost predicate LinesKept(st: State, u: State) {
    forall s :: s in st.lines ==> s in u.lines && u.lines[s] == st.lines[s]
  }

  /** Every source has its place in the order. */
  ghost predicate Ordered(r: Rendering, lines: Lines) {
    forall s :: s in lines ==> s in r.order
  }

  /** Appended lines make the text longer: equal texts then list the same sources. */
  lemma {:induction false} TextGrows(r: Rendering, older: Lines, newer: Lines, sources: seq<Uuid>)
    requires forall s :: s in older ==> s in newer && newer[s] == older[s]
    ensures |JoinedText(r, older, sources)| <= |JoinedText(r, newer, sources)|
    ensures |JoinedText(r, older, sources)| == |JoinedText(r, newer, sources)| ==> forall s :: s in sources && s in newer ==> s in older
  {
    if sources != [] {
      TextGrows(r, older, newer, sources[1..]);
      assert forall s :: s in sources ==> s == sources[0] || s in sources[1..];
    }
  }

  /** The hash binds: a transaction approved by a plan made earlier finds the very outcome of
      every pair that the plan showed; and the very lines exactly if lines were only appended. */
  lemma HashBinds(r: Rendering, seen: State, st: State, pairs: seq<Pair>, file: string)
    requires PairsValid(pairs) && Approved(r, st, pairs, file, HashOf(DocOf(r, seen, pairs, file)))
    ensures forall p :: p in pairs ==> OutcomeOf(seen, p) == OutcomeOf(st, p) && Conflicts(seen, p) == []
    ensures Ordered(r, st.lines) ==> (seen.lines == st.lines <==> LinesKept(seen, st))
  {
    hide Conflicts, AlreadyExists, CountOutcome, Assignments, Actionable, PairShape, ClaimsAgree;
    assert DocOf(r, seen, pairs, file) == DocOf(r, st, pairs, file);
    assert Entries(seen, pairs) == Entries(st, pairs);
    NoConflicts(st, pairs);
    forall p | p in pairs ensures EntryOf(seen, p) == EntryOf(st, p) {
      var k :| 0 <= k < |pairs| && pairs[k] == p;
      EntryFound(seen, pairs, k);
      EntryFound(st, pairs, k);
    }
    forall p | p in pairs ensures OutcomeOf(seen, p) == OutcomeOf(st, p) && Conflicts(seen, p) == [] {
      assert EntryOf(seen, p).outcome == EntryOf(st, p).outcome && EntryOf(seen, p).conflicts == EntryOf(st, p).conflicts;
    }
    if LinesKept(seen, st) && Ordered(r, st.lines) {
      TextGrows(r, seen.lines, st.lines, r.order);
      assert seen.lines.Keys == st.lines.Keys;
    }
  }

  lemma {:induction false} AbsentSkipped(r: Rendering, lines: Lines, before: seq<Uuid>, sources: seq<Uuid>)
    requires forall s :: s in before ==> s !in lines
    ensures JoinedText(r, lines, before + sources) == JoinedText(r, lines, sources)
  {
    if before != [] {
      assert (before + sources)[1..] == before[1..] + sources;
      AbsentSkipped(r, lines, before[1..], sources);
    } else {
      assert before + sources == sources;
    }
  }

  /** Without append-only lines it would not bind them: the text is not injective.  Any two rows
      have the text of one row whose reason spells out the second. */
  lemma TextNotInjective(r: Rendering, before: seq<Uuid>, a: Uuid, between: seq<Uuid>, b: Uuid, after: seq<Uuid>,
      la: Line, lb: Line)
    requires r.order == before + [a] + between + [b] + after
    requires a != b && a !in before && a !in between && a !in after && b !in before && b !in between && b !in after
    ensures var two := map[a := la, b := lb];
            var one := map[a := la.(reason := la.reason + "\n" + RowText(r, b, lb))];
            two != one && UnrelatedText(r, two) == UnrelatedText(r, one)
  {
    var two: Lines := map[a := la, b := lb];
    var one: Lines := map[a := la.(reason := la.reason + "\n" + RowText(r, b, lb))];
    assert b in two && b !in one;
    forall lines: Lines | lines == two || lines == one
      ensures JoinedText(r, lines, r.order) == JoinedText(r, lines, [a] + (between + [b] + after))
    {
      assert r.order == before + ([a] + (between + [b] + after));
      AbsentSkipped(r, lines, before, [a] + (between + [b] + after));
    }
    assert ([a] + (between + [b] + after))[1..] == between + [b] + after;
    assert between + [b] + after == between + ([b] + after) && ([b] + after)[1..] == after && after + [] == after;
    AbsentSkipped(r, two, between, [b] + after);
    AbsentSkipped(r, two, after, []);
    AbsentSkipped(r, one, between + [b] + after, []);
    assert (between + [b] + after) + [] == between + [b] + after;
    assert JoinedText(r, one, r.order) == RowText(r, a, one[a]);
    assert JoinedText(r, two, r.order) == RowText(r, a, la) + ("\n" + RowText(r, b, lb));
    ReasonLast(r, a, la, RowText(r, b, lb));
  }

  lemma ReasonLast(r: Rendering, a: Uuid, l: Line, tail: string)
    ensures RowText(r, a, l.(reason := l.reason + "\n" + tail)) == RowText(r, a, l) + ("\n" + tail)
  {
    var head := r.show(a) + "|" + r.show(l.successor) + "|" + l.legacyAgent + "|" + l.canonicalAgent + "|" + l.classification + "|"
                + l.evidence.text + "|";
    assert head + (l.reason + "\n" + tail) == head + l.reason + ("\n" + tail);
  }

  /** Lines that neither sit at the source of `p` nor name its successor do not matter to it. */
  ghost predicate LooksAway(st: State, p: Pair) {
    p.source !in st.lines && forall s :: s in st.lines ==> st.lines[s].successor != p.successor
  }

  lemma EntryAgrees(a: State, b: State, p: Pair)
    requires a.tables == b.tables && LooksAway(a, p) && LooksAway(b, p)
    ensures EntryOf(a, p) == EntryOf(b, p) && Foreign(a, p) == Foreign(b, p)
  {
    assert ClaimsOn(a.lines, p.successor) == {} == ClaimsOn(b.lines, p.successor);
  }

  lemma {:induction false} ObservationAgrees(a: State, b: State, pairs: seq<Pair>)
    requires a.tables == b.tables && forall p :: p in pairs ==> LooksAway(a, p) && LooksAway(b, p)
    ensures Entries(a, pairs) == Entries(b, pairs)
    ensures forall o :: CountOutcome(a, pairs, o) == CountOutcome(b, pairs, o)
    ensures forall c :: Total(a, pairs, c) == Total(b, pairs, c)
  {
    hide LooksAway, Foreign, Conflicts, AlreadyExists;
    if pairs != [] {
      var init, last := pairs[..|pairs| - 1], pairs[|pairs| - 1];
      assert pairs == init + [last];
      ObservationAgrees(a, b, init);
      EntryAgrees(a, b, last);
      assert OutcomeOf(a, last) == EntryOf(a, last).outcome == OutcomeOf(b, last);
    }
  }

  /** Two tables of lines, neither of which is a growth of the other, then have one plan hash, for
      any pairs that name other sources and successors. */
  lemma HashCollides(r: Rendering, t: Tables, pairs: seq<Pair>, file: string, a: Uuid, b: Uuid, la: Line, lb: Line)
    requires r.order == [a, b] && a != b
    requires forall p :: p in pairs ==> p.source != a && p.source != b && p.successor != la.successor && p.successor != lb.successor
    ensures var x := State(t, map[a := la, b := lb]);
            var y := State(t, map[a := la.(reason := la.reason + "\n" + RowText(r, b, lb))]);
            && DocOf(r, x, pairs, file) == DocOf(r, y, pairs, file)
            && !LinesKept(x, y) && !LinesKept(y, x)
  {
    hide RowText, UnrelatedText, Entries, CountOutcome, Total;
    var x := State(t, map[a := la, b := lb]);
    var y := State(t, map[a := la.(reason := la.reason + "\n" + RowText(r, b, lb))]);
    TextNotInjective(r, [], a, [], b, [], la, lb);
    assert b in x.lines && b !in y.lines && a in y.lines && a in x.lines;
    assert |y.lines[a].reason| > |x.lines[a].reason|;
    assert forall p :: p in pairs ==> LooksAway(x, p) && LooksAway(y, p);
    ObservationAgrees(x, y, pairs);
  }

  /** After an approved apply took effect the end state is exact. */
  lemma AppliedIsTerminal(st: State, u: State, pairs: seq<Pair>)
    requires CountOutcome(st, pairs, CONFLICT) == 0 && LinesAfter(st, pairs, u.lines) && u.tables == st.tables
    ensures Terminal(u, pairs) && forall p :: p in pairs ==> p.source in u.tables.principals
  {
    NoConflicts(st, pairs);
    forall p | p in pairs ensures AlreadyExists(u, p) && p.source in u.tables.principals {
      LinesMatch(st, pairs, u.lines, p);
      Unconflicted(st, p);
    }
  }

  /** As long as lines are only appended every later apply, whatever its hash, writes nothing. */
  lemma LaterApplyIsNoop(r: Rendering, u: State, v: View, w: State, pairs: seq<Pair>, file: string, hash: PlanHash,
      ack: CommitAck, reread: bool)
    requires Terminal(u, pairs) && LinesKept(u, v.probed) && Leaves(r, v, w, pairs, file, hash, ack)
    ensures w == v.probed && (!hash.Malformed? ==> ReportOf(r, v, pairs, file, hash, ack, reread) == AlreadyDone(|pairs|))
  {
    assert Terminal(v.probed, pairs);
  }

  /** Every report, for every commit fate and whatever other sessions did in between: APPLIED and
      NOOP mean an exact end state; a change is reported whenever the re-read could be made. */
  lemma ReportIsSound(r: Rendering, v: View, u: State, pairs: seq<Pair>, file: string, hash: PlanHash, ack: CommitAck,
      reread: bool)
    requires PairsValid(pairs) && Leaves(r, v, u, pairs, file, hash, ack)
    ensures var report := ReportOf(r, v, pairs, file, hash, ack, reread);
            && (report.Applied? ==> Terminal(u, pairs) && |u.lines| == |v.locked.lines| + report.inserted
                                    && report.inserted + report.skipped == |pairs|)
            && (report.AlreadyDone? ==> u == v.probed && Terminal(u, pairs))
            && (reread && !report.Applied? ==> u == LastRead(r, v, pairs, file, hash))
            && (report.OutcomeUnknown? ==> !reread && !ack.Acked?)
  {
    hide DocOf, Conflicts, LinesUpTo, Matches;
    OutcomesAddUp(v.locked, pairs);
    if Reaches(r, v, pairs, file, hash) && Approved(r, v.locked, pairs, file, hash) {
      if ack.LostNotApplied? {
        if Terminal(v.locked, pairs) {
          AllExist(v.locked, pairs);
        }
      } else {
        AppliedIsTerminal(v.locked, u, pairs);
      }
    }
  }

  /** On an exact end state nothing is planned. */
  lemma {:induction false} AllExist(st: State, pairs: seq<Pair>)
    requires Terminal(st, pairs)
    ensures CountOutcome(st, pairs, PLANNED) == 0
  {
    if pairs != [] {
      assert pairs[|pairs| - 1] in pairs;
      AllExist(st, pairs[..|pairs| - 1]);
    }
  }

  // ---------------------------------------------------------------------------
  // Outcomes and reports, column by column
  // ---------------------------------------------------------------------------

  /** The source has a line, and it differs from the pair in one of the four columns compared. */
  ghost predicate LineDiffering(lines: Lines, p: Pair) {
    p.source in lines
    && (|| lines[p.source].successor != p.successor || lines[p.source].legacyAgent != p.legacyAgent
        || lines[p.source].canonicalAgent != p.canonicalAgent || lines[p.source].classification != p.classification)
  }

  /** The source has a line equal in those four columns; evidence and reason do not matter. */
  ghost predicate LineThere(lines: Lines, p: Pair) {
    p.source in lines && lines[p.source].successor == p.successor && lines[p.source].legacyAgent == p.legacyAgent
    && lines[p.source].canonicalAgent == p.canonicalAgent && lines[p.source].classification == p.classification
  }

  /** What the census of a source counts: the visits assigned to it, and of these the ones whose
      instance is neither cancelled nor archived. */
  lemma CensusExactly(t: Tables, source: Uuid, v: Uuid)
    ensures v in Assignments(t, source) <==> v in t.visits && t.visits[v].assignee == Some(source)
    ensures v in Actionable(t, source)
       <==> && v in t.visits && t.visits[v].assignee == Some(source) && t.visits[v].workflow in t.instances
            && !t.instances[t.visits[v].workflow].cancelled && !t.instances[t.visits[v].workflow].archived
  {
  }

  /** What of a pair makes it a conflict, and otherwise whether it is there or planned. */
  lemma OutcomesExactly(st: State, p: Pair)
    ensures var ps := st.tables.principals;
            var refused := || p.source !in ps || p.successor !in ps || !ps[p.successor].enabled || ps[p.successor].kind != "AGENT"
                           || LineDiffering(st.lines, p)
                           || exists s :: s in st.lines && st.lines[s].successor == p.successor && st.lines[s].canonicalAgent != p.canonicalAgent;
            && (OutcomeOf(st, p) == CONFLICT <==> refused)
            && (OutcomeOf(st, p) == NOOP <==> !refused && LineThere(st.lines, p))
            && (OutcomeOf(st, p) == PLANNED <==> !refused && p.source !in st.lines)
  {
    hide Conflicts;
    Unconflicted(st, p);
  }

  lemma ProbeExactly(st: State, pairs: seq<Pair>)
    ensures Terminal(st, pairs) <==> forall k :: 0 <= k < |pairs| ==> LineThere(st.lines, pairs[k])
  {
    assert forall k :: 0 <= k < |pairs| ==> pairs[k] in pairs;
    forall p | p in pairs ensures exists k :: 0 <= k < |pairs| && pairs[k] == p {
    }
  }

  /** NOOP is reported exactly if the probe finds every pair's line in those four columns. */
  lemma AlreadyDoneExactly(r: Rendering, v: View, pairs: seq<Pair>, file: string, hash: PlanHash, ack: CommitAck,
      reread: bool)
    ensures ReportOf(r, v, pairs, file, hash, ack, reread) == AlreadyDone(|pairs|)
       <==> !hash.Malformed? && forall k :: 0 <= k < |pairs| ==> LineThere(v.probed.lines, pairs[k])
  {
    ProbeExactly(v.probed, pairs);
  }

  /** A line that differs at a pair's source refuses every apply, whatever its hash and fate and
      whatever other sessions append meanwhile. */
  lemma DifferingLineRefuses(r: Rendering, v: View, u: State, pairs: seq<Pair>, file: string, hash: PlanHash,
      ack: CommitAck,
      reread: bool, p: Pair)
    requires p in pairs && LineDiffering(v.probed.lines, p) && LinesKept(v.probed, v.observed) && LinesKept(v.probed, v.locked)
    requires Leaves(r, v, u, pairs, file, hash, ack)
    ensures ReportOf(r, v, pairs, file, hash, ack, reread) == Rejected && u in {v.probed, v.observed, v.locked}
    ensures !Terminal(v.probed, pairs) && OutcomeOf(v.probed, p) == CONFLICT
  {
    hide DocOf, Conflicts;
    assert LineDiffering(v.observed.lines, p);
    OutcomesExactly(v.probed, p);
    OutcomesExactly(v.observed, p);
    NoConflicts(v.observed, pairs);
    ProbeExactly(v.probed, pairs);
  }

  // ---------------------------------------------------------------------------
  // The lineage invariant over all runs
  // ---------------------------------------------------------------------------

  ghost predicate ClaimsUnique(lines: Lines) {
    forall a, b :: a in lines && b in lines && lines[a].successor == lines[b].successor ==> lines[a].canonicalAgent == lines[b].canonicalAgent
  }

  ghost predicate LineShaped(source: Uuid, l: Line) {
    l.successor != source && CanonicalAgentIdValid(l.canonicalAgent) && l.classification in CLASSIFICATIONS
  }

  /** One canonical id per successor, and every line is one a reviewed pair may name. */
  ghost predicate LineageSound(lines: Lines) {
    ClaimsUnique(lines) && forall a :: a in lines ==> LineShaped(a, lines[a])
  }

  /** Where a line after an apply comes from. */
  lemma LineOrigin(st: State, u: State, pairs: seq<Pair>, a: Uuid) returns (k: nat)
    requires LinesAfter(st, pairs, u.lines) && a in u.lines && a !in st.lines
    ensures k < |pairs| && pairs[k].source == a && u.lines[a] == LineOf(pairs[k])
  {
    k :| 0 <= k < |pairs| && pairs[k].source == a;
  }

  lemma ApplyKeepsLineage(r: Rendering, st: State, u: State, pairs: seq<Pair>, file: string, hash: PlanHash,
      ack: CommitAck)
    requires PairsValid(pairs) && AppliesTo(r, st, u, pairs, file, hash, ack) && LineageSound(st.lines)
    ensures LineageSound(u.lines) && LinesKept(st, u)
  {
    if u != st {
      hide Conflicts, DocOf, LinesUpTo, PairsValid, LinesKept, LineShaped, ClaimsUnique;
      NoConflicts(st, pairs);
      LinesOnlyAppended(st, u, pairs);
      forall a, b | a in u.lines && b in u.lines && u.lines[a].successor == u.lines[b].successor
        ensures u.lines[a].canonicalAgent == u.lines[b].canonicalAgent
      {
        if a !in st.lines || b in st.lines {
          TwoClaimsAgree(st, u, pairs, a, b);
        } else {
          TwoClaimsAgree(st, u, pairs, b, a);
        }
      }
      ClaimsUniqueIntro(u.lines);
      forall a | a in u.lines ensures LineShaped(a, u.lines[a]) {
        NewLineShape(st, u, pairs, a);
      }
    }
  }

  lemma ClaimsUniqueIntro(lines: Lines)
    requires forall a, b :: a in lines && b in lines && lines[a].successor == lines[b].successor ==> lines[a].canonicalAgent == lines[b].canonicalAgent
    ensures ClaimsUnique(lines)
  {
  }

  lemma LinesOnlyAppended(st: State, u: State, pairs: seq<Pair>)
    requires LinesAfter(st, pairs, u.lines)
    ensures LinesKept(st, u)
  {
  }

  lemma NewLineShape(st: State, u: State, pairs: seq<Pair>, a: Uuid)
    requires PairsValid(pairs) && LinesAfter(st, pairs, u.lines) && LineageSound(st.lines) && a in u.lines
    ensures LineShaped(a, u.lines[a])
  {
    hide CanonicalAgentIdValid;
    if a !in st.lines {
      var j := LineOrigin(st, u, pairs, a);
      assert PairShape(pairs[j]);
    }
  }

  lemma TwoClaimsAgree(st: State, u: State, pairs: seq<Pair>, a: Uuid, b: Uuid)
    requires PairsValid(pairs) && LinesAfter(st, pairs, u.lines) && LineageSound(st.lines)
    requires forall p :: p in pairs ==> Conflicts(st, p) == []
    requires a in u.lines && b in u.lines && u.lines[a].successor == u.lines[b].successor && (a !in st.lines || b in st.lines)
    ensures u.lines[a].canonicalAgent == u.lines[b].canonicalAgent
  {
    hide Conflicts, LineShaped, PairShape, SourcesDistinct;
    if a !in st.lines {
      var j := LineOrigin(st, u, pairs, a);
      if b !in st.lines {
        var k := LineOrigin(st, u, pairs, b);
      } else {
        Unconflicted(st, pairs[j]);
      }
    }
  }

  /** The transaction of an apply with any pairs, hash and commit fate, or any change outside the
      lineage table, such as other sessions make between the phases of an apply. */
  datatype Attempt = Attempt(pairs: seq<Pair>, file: string, hash: PlanHash, ack: CommitAck) | Outside

  ghost predicate Follows(r: Rendering, st: State, u: State, a: Attempt) {
    match a
    case Attempt(pairs, file, hash, ack) => PairsValid(pairs) && AppliesTo(r, st, u, pairs, file, hash, ack)
    case Outside => u.lines == st.lines
  }

  ghost predicate IsHistory(r: Rendering, states: seq<State>, attempts: seq<Attempt>) {
    |states| == |attempts| + 1 && forall k :: 0 <= k < |attempts| ==> Follows(r, states[k], states[k + 1], attempts[k])
  }

  /** Over every history, with the transactions of any number of applies interleaved: the lineage
      stays sound and no line ever changes or disappears. */
  lemma {:induction false} LineageAlways(r: Rendering, states: seq<State>, attempts: seq<Attempt>, m: nat, n: nat)
    requires IsHistory(r, states, attempts) && m <= n < |states| && LineageSound(states[m].lines)
    ensures LineageSound(states[n].lines) && LinesKept(states[m], states[n])
    decreases n
  {
    hide LineageSound, AppliesTo, PairsValid;
    if m < n {
      LineageAlways(r, states, attempts, m, n - 1);
      match attempts[n - 1]
      case Attempt(pairs, file, hash, ack) => ApplyKeepsLineage(r, states[n - 1], states[n], pairs, file, hash, ack);
      case Outside =>
    }
  }

  /** So a plan made at any point of a history binds every transaction it approves later. */
  lemma PlanBindsHistory(r: Rendering, states: seq<State>, attempts: seq<Attempt>, m: nat, n: nat, pairs: seq<Pair>,
      file: string)
    requires IsHistory(r, states, attempts) && m <= n < |states| && LineageSound(states[m].lines) && PairsValid(pairs)
    requires Ordered(r, states[n].lines) && Approved(r, states[n], pairs, file, HashOf(DocOf(r, states[m], pairs, file)))
    ensures states[m].lines == states[n].lines
    ensures forall p :: p in pairs ==> OutcomeOf(states[m], p) == OutcomeOf(states[n], p) && Conflicts(states[m], p) == []
  {
    hide DocOf, Approved, Conflicts, OutcomeOf, LinesKept, LineageSound, Ordered, PairsValid;
    LineageAlways(r, states, attempts, m, n);
    HashBinds(r, states[m], states[n], pairs, file);
  }
}
