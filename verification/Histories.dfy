/** Whole histories of operator runs over one database. */
module Histories {
  import opened Identifiers
  import opened Ledger
  import opened EventLog
  import opened Store
  import opened Cutover
  import opened CutoverScope
  import P = CutoverPairs
  import R = CutoverResponsibilities
  import N = Normalization
  import T = Transitions

  // ---------------------------------------------------------------------------
  // The canary order
  // ---------------------------------------------------------------------------

  /** An operator run, or anything else that happens to the database in between. */
  datatype Turn =
    | Operate(scope: Scope, actor: Uuid, excluded: Uuid, auth: Auth, fates: seq<Fate>, limit: nat)
    | Drifted(after: Tables)

  /** Completed receipts are never deleted, and nobody but this operator writes summaries. */
  ghost predicate SameSummaries(t: Tables, u: Tables) {
    forall a, m :: CompletedSummaries(t, a, m) == CompletedSummaries(u, a, m)
  }

  ghost predicate TurnOk(t: Tables, plan: Plan, turn: Turn) {
    match turn
    case Operate(_, _, _, _, fates, _) => |fates| == |plan.pairs|
    case Drifted(u) => SameSummaries(t, u)
  }

  ghost function After(t: Tables, plan: Plan, turn: Turn): Tables
    requires TurnOk(t, plan, turn)
  {
    match turn
    case Operate(scope, actor, excluded, auth, fates, limit) => RunScope(t, plan, scope, actor, excluded, auth, fates, limit).0
    case Drifted(u) => u
  }

  /** Every turn is possible in the state the turns before it leave. */
  ghost predicate Possible(t: Tables, plan: Plan, turns: seq<Turn>)
    decreases |turns|
  {
    turns == [] || (TurnOk(t, plan, turns[0]) && Possible(After(t, plan, turns[0]), plan, turns[1..]))
  }

  ghost function AfterAll(t: Tables, plan: Plan, turns: seq<Turn>): Tables
    requires Possible(t, plan, turns)
    decreases |turns|
  {
    if turns == [] then t else AfterAll(After(t, plan, turns[0]), plan, turns[1..])
  }

  predicate Done(t: Tables, actor: Uuid, pair: PairId) {
    CompletedSummaries(t, actor, MigrationOf(pair)) != {}
  }

  predicate CanaryDone(t: Tables, plan: Plan, agent: string, actor: Uuid) {
    Find(plan.pairs, agent).Some? && Done(t, actor, Find(plan.pairs, agent).value)
  }

  /** A summary by an actor for any other pair implies that actor's build canary, and for a pair
      of the remaining fleet both canaries. */
  ghost predicate CanaryOrder(t: Tables, plan: Plan) {
    forall actor, p :: p in plan.pairs && Done(t, actor, p) && p.newAgent != BUILD_AGENT ==>
      CanaryDone(t, plan, BUILD_AGENT, actor) && (p.newAgent != EFFICIENCY_AGENT ==> CanaryDone(t, plan, EFFICIENCY_AGENT, actor))
  }

  ghost predicate DistinctPairs(plan: Plan) {
    forall j, k :: 0 <= j < k < |plan.pairs| ==> MigrationOf(plan.pairs[j]) != MigrationOf(plan.pairs[k])
  }

  lemma ResultSummaries(t: Tables, plan: Plan, index: nat, pair: PairId, display: string, actor: Uuid, ack: CommitAck,
      a: Uuid, m: MigrationId)
    ensures var u := PairResult(t, plan, index, pair, display, actor, ack);
            && CompletedSummaries(t, a, m) <= CompletedSummaries(u, a, m)
            && (CompletedSummaries(u, a, m) != CompletedSummaries(t, a, m) ==> a == actor && m == MigrationOf(pair))
  {
    hide PairAccepted, PairWritten, CompletedSummaries;
    if PairAccepted(t, plan, index, pair, display, actor) {
      P.CompletedAfter(t, plan, index, pair, display, actor, a, m);
    }
  }

  /** A run adds summaries only for its own actor and the pairs of its scope, and loses none. */
  lemma {:induction false} RunSummaries(t: Tables, plan: Plan, scope: Scope, i: nat, actor: Uuid, auth: Auth,
      fates: seq<Fate>, limit: nat, a: Uuid, p: PairId)
    requires i <= |plan.pairs| == |fates| && DistinctPairs(plan) && p in plan.pairs
    ensures var u := RunPairs(t, plan, scope, i, actor, auth, fates, limit).0;
            && (Done(t, a, p) ==> Done(u, a, p))
            && (Done(u, a, p) && !Done(t, a, p) ==> a == actor && Selected(scope, p))
    decreases |plan.pairs| - i
  {
    hide PairResult, PairReport, CompletedSummaries;
    if i < |plan.pairs| && i < limit {
      var q := plan.pairs[i];
      if !Selected(scope, q) {
        RunSummaries(t, plan, scope, i + 1, actor, auth, fates, limit, a, p);
      } else if q in auth {
        var u := PairResult(t, plan, i + 1, q, auth[q], actor, fates[i].ack);
        ResultSummaries(t, plan, i + 1, q, auth[q], actor, fates[i].ack, a, MigrationOf(p));
        var k :| 0 <= k < |plan.pairs| && plan.pairs[k] == p;
        assert MigrationOf(p) == MigrationOf(q) ==> p == q;
        RunSummaries(u, plan, scope, i + 1, actor, auth, fates, limit, a, p);
      }
    }
  }

  lemma GateIsDone(t: Tables, plan: Plan, agent: string, actor: Uuid, auth: Auth)
    requires Gate(t, plan, agent, actor, auth)
    ensures CanaryDone(t, plan, agent, actor)
  {
  }

  /** No turn breaks the order: the gates are checked before the first write and receipts stay. */
  lemma TurnKeepsOrder(t: Tables, plan: Plan, turn: Turn)
    requires DistinctPairs(plan) && TurnOk(t, plan, turn) && CanaryOrder(t, plan)
    ensures CanaryOrder(After(t, plan, turn), plan)
  {
    hide CompletedSummaries, RunPairs, Gate;
    var u := After(t, plan, turn);
    match turn
    case Drifted(_) =>
      forall a, p: PairId ensures Done(u, a, p) == Done(t, a, p) {
        assert CompletedSummaries(t, a, MigrationOf(p)) == CompletedSummaries(u, a, MigrationOf(p));
      }
      forall a, p | p in plan.pairs && Done(u, a, p) && p.newAgent != BUILD_AGENT
        ensures CanaryDone(u, plan, BUILD_AGENT, a) && (p.newAgent != EFFICIENCY_AGENT ==> CanaryDone(u, plan, EFFICIENCY_AGENT, a))
      {
        assert Done(t, a, p);
      }
    case Operate(scope, actor, excluded, auth, fates, limit) =>
      if Admitted(t, plan, scope, actor, excluded, auth) {
        forall a, p | p in plan.pairs ensures (Done(t, a, p) ==> Done(u, a, p)) && (Done(u, a, p) && !Done(t, a, p) ==> a == actor && Selected(scope, p)) {
          RunSummaries(t, plan, scope, 0, actor, auth, fates, limit, a, p);
        }
        if scope != Build {
          GateIsDone(t, plan, BUILD_AGENT, actor, auth);
        }
        if scope == RemainingFleet {
          GateIsDone(t, plan, EFFICIENCY_AGENT, actor, auth);
        }
        forall a, p | p in plan.pairs && Done(u, a, p) && p.newAgent != BUILD_AGENT
          ensures CanaryDone(u, plan, BUILD_AGENT, a) && (p.newAgent != EFFICIENCY_AGENT ==> CanaryDone(u, plan, EFFICIENCY_AGENT, a))
        {
          if !Done(t, a, p) {
            assert a == actor && Selected(scope, p);
          }
        }
      }
  }

  /** The canary order holds after every history of runs and drifts. */
  lemma {:induction false} CanaryOrderAlways(t: Tables, plan: Plan, turns: seq<Turn>)
    requires DistinctPairs(plan) && CanaryOrder(t, plan) && Possible(t, plan, turns)
    ensures CanaryOrder(AfterAll(t, plan, turns), plan)
    decreases |turns|
  {
    if turns != [] {
      TurnKeepsOrder(t, plan, turns[0]);
      CanaryOrderAlways(After(t, plan, turns[0]), plan, turns[1..]);
    }
  }

  // ---------------------------------------------------------------------------
  // Both operators and ordinary transitions together
  // ---------------------------------------------------------------------------

  /** A run of an operator, or a transition command of a user between the runs. */
  datatype Run =
    | CutoverRun(scope: Scope, actor: Uuid, excluded: Uuid, auth: Auth, fates: seq<Fate>, limit: nat)
    | NormalizationRun(rows: seq<N.PlanRow>, operator: Uuid, human: Uuid, database: string, ack: CommitAck)
    | TransitionRun(move: T.Move, ack: CommitAck)

  ghost predicate RunOk(plan: Plan, run: Run) {
    match run
    case CutoverRun(_, _, _, _, fates, _) => |fates| == |plan.pairs|
    case NormalizationRun(rows, _, human, _, _) => N.PlanShape(rows, human)
    case TransitionRun(_, _) => true
  }

  ghost function Ran(t: Tables, plan: Plan, run: Run): Tables
    requires RunOk(plan, run)
  {
    match run
    case CutoverRun(scope, actor, excluded, auth, fates, limit) => RunScope(t, plan, scope, actor, excluded, auth, fates, limit).0
    case NormalizationRun(rows, operator, human, database, ack) => N.Result(t, rows, operator, human, database, ack)
    case TransitionRun(move, ack) => T.MoveResult(t, move, ack)
  }

  ghost function RanAll(t: Tables, plan: Plan, runs: seq<Run>): Tables
    requires forall k :: 0 <= k < |runs| ==> RunOk(plan, runs[k])
    decreases |runs|
  {
    if runs == [] then t else RanAll(Ran(t, plan, runs[0]), plan, runs[1..])
  }

  lemma RunKeepsAll(t: Tables, plan: Plan, run: Run)
    requires RunOk(plan, run) && Sound(t) && AllExact(t)
    ensures var u := Ran(t, plan, run); Sound(u) && AllExact(u) && HistoryKept(t, u)
  {
    hide Sound, AllExact, HistoryKept, RunPairs, N.Result, Admitted, T.MoveResult;
    match run
    case CutoverRun(scope, actor, excluded, auth, fates, limit) =>
      HistoryKeptReflexive(t);
      RunKeepsLog(t, plan, scope, 0, actor, auth, fates, limit, Given(0), "");
    case NormalizationRun(rows, operator, human, database, ack) =>
      N.ResultKeepsLog(t, rows, operator, human, database, ack);
    case TransitionRun(move, ack) =>
      T.MoveKeepsLog(t, move, ack);
  }

  /** Every history of both operators and of transitions, with every commit fate: each instance's log stays exactly
      numbered and folds to its projection, and no visit, event or completed receipt changes. */
  lemma {:induction false} LogExactAlways(t: Tables, plan: Plan, runs: seq<Run>)
    requires (forall k :: 0 <= k < |runs| ==> RunOk(plan, runs[k])) && Sound(t) && AllExact(t)
    ensures var u := RanAll(t, plan, runs); Sound(u) && AllExact(u) && HistoryKept(t, u)
    decreases |runs|
  {
    hide Sound, AllExact, HistoryKept, Ran;
    if runs == [] {
      HistoryKeptReflexive(t);
    } else {
      var u := Ran(t, plan, runs[0]);
      RunKeepsAll(t, plan, runs[0]);
      LogExactAlways(u, plan, runs[1..]);
      HistoryKeptTransitive(t, u, RanAll(t, plan, runs));
    }
  }

  /** The instance's log holds a normalization event. */
  ghost predicate Normalized(t: Tables, w: Uuid) {
    exists k: int :: Slot(w, k) in t.events && t.events[Slot(w, k)].kind.HumanNormalized?
  }

  lemma NormalizedNotRebuildable(t: Tables, manifest: seq<PairId>, w: Uuid)
    requires w in t.instances && Normalized(t, w)
    ensures !Rebuildable(t, manifest, w)
  {
    if Numbered(t, w) {
      var k: int :| Slot(w, k) in t.events && t.events[Slot(w, k)].kind.HumanNormalized?;
      NormalizedLogRejected(t, manifest, w, k, t.instances[w].version);
    }
  }

  lemma NormalizedStays(t: Tables, u: Tables, w: Uuid)
    requires HistoryKept(t, u) && Normalized(t, w)
    ensures Normalized(u, w)
  {
    var k: int :| Slot(w, k) in t.events && t.events[Slot(w, k)].kind.HumanNormalized?;
    assert Slot(w, k) in u.events && u.events[Slot(w, k)].kind.HumanNormalized?;
  }

  lemma NormalizationRebuildable(t: Tables, plan: Plan, run: Run, w: Uuid)
    requires RunOk(plan, run) && run.NormalizationRun? && Sound(t) && AllExact(t) && w in t.instances && Rebuildable(t, plan.pairs, w)
    ensures var u := Ran(t, plan, run); w in u.instances && (Rebuildable(u, plan.pairs, w) <==> !Normalized(u, w))
  {
    hide Rebuildable, Normalized, N.Applicable, N.Final, Sound, AllExact, N.RowTerminal, N.PlanShape;
    var u := Ran(t, plan, run);
    if Normalized(t, w) {
      NormalizedNotRebuildable(t, plan.pairs, w);
    }
    if w in u.instances && Normalized(u, w) {
      NormalizedNotRebuildable(u, plan.pairs, w);
    }
    if u != t {
      R.SoundInstances(t);
      N.RebuildableAfterApply(t, run.rows, run.operator, run.human, run.database, plan.pairs, w);
      if k :| 0 <= k < |run.rows| && run.rows[k].workflow == w {
        N.FinalIsTerminal(t, run.rows, run.operator, run.human, run.database);
        RowNormalized(u, run.rows, k, run.operator, run.human, run.database);
      }
    }
  }

  lemma RowNormalized(u: Tables, rows: seq<N.PlanRow>, k: nat, operator: Uuid, human: Uuid, database: string)
    requires k < |rows| && N.Terminal(u, rows, operator, human, database)
    ensures Normalized(u, rows[k].workflow)
  {
    assert N.RowTerminal(u, rows[k], operator, NormalizationGroup(operator, database));
    assert Slot(rows[k].workflow, rows[k].version + 1) in u.events;
  }

  lemma RunRebuildableExactly(t: Tables, plan: Plan, run: Run, w: Uuid)
    requires RunOk(plan, run) && Sound(t) && AllExact(t) && w in t.instances && (Rebuildable(t, plan.pairs, w) <==> !Normalized(t, w))
    ensures var u := Ran(t, plan, run); w in u.instances && (Rebuildable(u, plan.pairs, w) <==> !Normalized(u, w))
  {
    hide Rebuildable, Normalized, Sound, AllExact, HistoryKept, N.Applicable, N.Final, RunPairs, Admitted,
         N.PlanShape, T.MoveResult;
    var u := Ran(t, plan, run);
    RunKeepsAll(t, plan, run);
    RunKeepsInstances(t, plan, run, w);
    if Normalized(t, w) {
      NormalizedStays(t, u, w);
      NormalizedNotRebuildable(u, plan.pairs, w);
    } else if run.NormalizationRun? {
      NormalizationRebuildable(t, plan, run, w);
    } else if run.TransitionRun? {
      T.MoveRebuildable(t, plan.pairs, run.move, run.ack, w);
      if Normalized(u, w) {
        NormalizedNotRebuildable(u, plan.pairs, w);
      }
    } else {
      if Admitted(t, plan, run.scope, run.actor, run.excluded, run.auth) {
        AdmittedOutside(t, plan, run.scope, run.actor, run.excluded, run.auth);
        RunRebuildable(t, plan, run.scope, 0, run.actor, run.auth, run.fates, run.limit, w);
      }
      if Normalized(u, w) {
        NormalizedNotRebuildable(u, plan.pairs, w);
      }
    }
  }

  lemma AdmittedOutside(t: Tables, plan: Plan, scope: Scope, actor: Uuid, excluded: Uuid, auth: Auth)
    requires Admitted(t, plan, scope, actor, excluded, auth)
    ensures !InFleet(plan, actor)
  {
  }

  lemma RunKeepsInstances(t: Tables, plan: Plan, run: Run, w: Uuid)
    requires RunOk(plan, run) && Sound(t) && AllExact(t) && w in t.instances
    ensures w in Ran(t, plan, run).instances
  {
    hide Sound, AllExact, HistoryKept, RunPairs, Admitted, Rebuildable, N.Applicable, N.Final, N.PlanShape,
         T.MoveResult;
    match run
    case CutoverRun(scope, actor, excluded, auth, fates, limit) =>
      RunKeepsLog(t, plan, scope, 0, actor, auth, fates, limit, Given(0), "");
    case NormalizationRun(rows, operator, human, database, ack) =>
      if N.Applicable(t, rows, operator, human, database) {
        R.SoundInstances(t);
        N.RebuildableAfterApply(t, rows, operator, human, database, plan.pairs, w);
      }
    case TransitionRun(move, ack) =>
      T.MoveKeepsLog(t, move, ack);
  }

  /** After every history: an instance that recovery could rebuild can still be rebuilt if and
      only if no normalization row was ever committed for it. */
  lemma {:induction false} RebuildableExactly(t: Tables, plan: Plan, runs: seq<Run>, w: Uuid)
    requires (forall k :: 0 <= k < |runs| ==> RunOk(plan, runs[k])) && Sound(t) && AllExact(t) && w in t.instances
    requires Rebuildable(t, plan.pairs, w) <==> !Normalized(t, w)
    ensures var u := RanAll(t, plan, runs); w in u.instances && (Rebuildable(u, plan.pairs, w) <==> !Normalized(u, w))
    decreases |runs|
  {
    hide Sound, AllExact, HistoryKept, Ran, Rebuildable, Normalized;
    if runs != [] {
      RunKeepsAll(t, plan, runs[0]);
      RunRebuildableExactly(t, plan, runs[0], w);
      RebuildableExactly(Ran(t, plan, runs[0]), plan, runs[1..], w);
    }
  }

  // ---------------------------------------------------------------------------
  // Summaries and their audits
  // ---------------------------------------------------------------------------

  /** An actor has a completed summary for a migration exactly if it has an audit for it. */
  ghost predicate Paired(t: Tables) {
    forall a, m :: CompletedSummaries(t, a, m) == {} <==> SummaryAudits(t, a, m) == {}
  }

  /** No summary and no summary audit comes or goes. */
  ghost predicate SameRecords(t: Tables, u: Tables) {
    forall a, m :: CompletedSummaries(t, a, m) == CompletedSummaries(u, a, m) && SummaryAudits(t, a, m) == SummaryAudits(u, a, m)
  }

  lemma SameRecordsPaired(t: Tables, u: Tables)
    requires SameRecords(t, u) && Paired(t)
    ensures Paired(u)
  {
    hide CompletedSummaries, SummaryAudits;
    forall a, m ensures CompletedSummaries(u, a, m) == {} <==> SummaryAudits(u, a, m) == {} {
      assert CompletedSummaries(t, a, m) == CompletedSummaries(u, a, m);
    }
  }

  lemma PairPaired(t: Tables, plan: Plan, index: nat, pair: PairId, display: string, actor: Uuid, ack: CommitAck)
    requires Sound(t) && AllExact(t) && Paired(t)
    ensures Paired(PairResult(t, plan, index, pair, display, actor, ack))
  {
    hide Sound, AllExact, PairAccepted, PairWritten, CompletedSummaries, SummaryAudits;
    var u := PairResult(t, plan, index, pair, display, actor, ack);
    if u != t {
      forall a, m ensures CompletedSummaries(u, a, m) == {} <==> SummaryAudits(u, a, m) == {} {
        P.SummariesAfter(t, plan, index, pair, display, actor, a, m);
        assert CompletedSummaries(t, a, m) == {} <==> SummaryAudits(t, a, m) == {};
      }
    }
  }

  lemma {:induction false} PairsPaired(t: Tables, plan: Plan, scope: Scope, i: nat, actor: Uuid, auth: Auth,
      fates: seq<Fate>, limit: nat)
    requires i <= |plan.pairs| == |fates| && Sound(t) && AllExact(t) && Paired(t)
    ensures Paired(RunPairs(t, plan, scope, i, actor, auth, fates, limit).0)
    decreases |plan.pairs| - i
  {
    hide Sound, AllExact, HistoryKept, PairResult, PairReport, Paired;
    if i < |plan.pairs| && i < limit {
      var pair := plan.pairs[i];
      if !Selected(scope, pair) {
        PairsPaired(t, plan, scope, i + 1, actor, auth, fates, limit);
      } else if pair in auth {
        var u := PairResult(t, plan, i + 1, pair, auth[pair], actor, fates[i].ack);
        ResultKeepsLog(t, plan, i + 1, pair, auth[pair], actor, fates[i].ack);
        PairPaired(t, plan, i + 1, pair, auth[pair], actor, fates[i].ack);
        PairsPaired(u, plan, scope, i + 1, actor, auth, fates, limit);
      }
    }
  }

  /** A receipt under any other key is no summary. */
  lemma OtherReceipt(t: Tables, u: Tables, command: Uuid, r: Receipt)
    requires command !in t.receipts && u.receipts == t.receipts[command := r] && u.audits == t.audits && !r.key.SummaryKey?
    ensures SameRecords(t, u)
  {
    forall a, m ensures CompletedSummaries(t, a, m) == CompletedSummaries(u, a, m) && SummaryAudits(t, a, m) == SummaryAudits(u, a, m) {
      P.SameAudits(t, u, a, m);
    }
  }

  lemma SameRecordsTransitive(t: Tables, u: Tables, x: Tables)
    requires SameRecords(t, u) && SameRecords(u, x)
    ensures SameRecords(t, x)
  {
    hide CompletedSummaries, SummaryAudits;
  }

  lemma RowRecords(t: Tables, row: N.PlanRow, index: nat, actor: Uuid, g: Group)
    requires N.RowAccepted(t, row, actor, g)
    ensures SameRecords(t, N.RowWritten(t, row, index, actor, g))
  {
    hide SameRecords;
    OtherReceipt(t, N.RowWritten(t, row, index, actor, g), N.CommandId(g, row), N.RowReceipt(row, actor, g));
  }

  lemma {:induction false} RowsRecords(t: Tables, rows: seq<N.PlanRow>, first: nat, actor: Uuid, g: Group)
    requires N.LoopAccepted(t, rows, first, actor, g)
    ensures SameRecords(t, N.WriteRows(t, rows, first, actor, g))
    decreases |rows|
  {
    hide N.RowAccepted, N.RowWritten, SameRecords;
    if rows == [] {
      SameRecordsReflexive(t);
    } else {
      var u := N.RowWritten(t, rows[0], first, actor, g);
      RowRecords(t, rows[0], first, actor, g);
      RowsRecords(u, rows[1..], first + 1, actor, g);
      SameRecordsTransitive(t, u, N.WriteRows(t, rows, first, actor, g));
    }
  }

  lemma SameRecordsReflexive(t: Tables)
    ensures SameRecords(t, t)
  {
  }

  lemma NormalizationRecords(t: Tables, rows: seq<N.PlanRow>, actor: Uuid, human: Uuid, database: string,
      ack: CommitAck)
    requires N.PlanShape(rows, human) && Sound(t) && AllExact(t)
    ensures SameRecords(t, N.Result(t, rows, actor, human, database, ack))
  {
    hide N.RowReady, N.ArtifactCount, N.PrincipalsReady, N.PlanShape, Sound, AllExact, N.LoopAccepted, N.WriteRows,
         SameRecords;
    SameRecordsReflexive(t);
    if N.Applicable(t, rows, actor, human, database) {
      var g := NormalizationGroup(actor, database);
      N.StartAccepted(t, rows, actor, human, g);
      RowsRecords(t, rows, 1, actor, g);
      N.RowsFrame(t, rows, 1, actor, g);
      N.NoAuditArtifact(t, rows, actor, g);
      var u := N.WriteRows(t, rows, 1, actor, g);
      SameColumns(t, u);
      OtherAudit(u, Derived(g, GroupAudit), N.PlanAudit(rows, actor, human, database));
      SameRecordsTransitive(t, u, N.Final(t, rows, actor, human, database));
    }
  }

  lemma OtherAudit(t: Tables, id: Uuid, audit: Audit)
    requires id !in t.audits && !audit.resource.CutoverOf?
    ensures SameRecords(t, t.(audits := t.audits[id := audit]))
  {
    var u := t.(audits := t.audits[id := audit]);
    forall a, m ensures CompletedSummaries(t, a, m) == CompletedSummaries(u, a, m) && SummaryAudits(t, a, m) == SummaryAudits(u, a, m) {
      P.SameReceipts(t, u, a, m);
    }
  }

  lemma RunPaired(t: Tables, plan: Plan, run: Run)
    requires RunOk(plan, run) && Sound(t) && AllExact(t) && Paired(t)
    ensures Paired(Ran(t, plan, run))
  {
    hide Sound, AllExact, RunPairs, N.Result, Admitted, Paired, SameRecords, N.PlanShape, T.MoveAccepted;
    match run
    case CutoverRun(scope, actor, excluded, auth, fates, limit) =>
      PairsPaired(t, plan, scope, 0, actor, auth, fates, limit);
    case NormalizationRun(rows, operator, human, database, ack) =>
      NormalizationRecords(t, rows, operator, human, database, ack);
      SameRecordsPaired(t, Ran(t, plan, run));
    case TransitionRun(m, ack) =>
      if T.MoveAccepted(t, m) && !ack.LostNotApplied? {
        T.MoveFits(t, m);
        OtherReceipt(t, T.Moved(t, m), m.command, T.MoveReceipt(m));
        SameRecordsPaired(t, Ran(t, plan, run));
      }
  }

  /** Summaries and audits come in pairs over every history. */
  lemma {:induction false} PairedAlways(t: Tables, plan: Plan, runs: seq<Run>)
    requires (forall k :: 0 <= k < |runs| ==> RunOk(plan, runs[k])) && Sound(t) && AllExact(t) && Paired(t)
    ensures Paired(RanAll(t, plan, runs))
    decreases |runs|
  {
    hide Sound, AllExact, HistoryKept, Ran, Paired;
    if runs != [] {
      RunKeepsAll(t, plan, runs[0]);
      RunPaired(t, plan, runs[0]);
      PairedAlways(Ran(t, plan, runs[0]), plan, runs[1..]);
    }
  }

  /** So in every history the report of a pair that reaches its commit, with both re-reads
      working, is COMMITTED or ROLLED_BACK as its commit took effect or not, and never a conflict;
      and a rerun of the committed pair is a NOOP. */
  lemma ReportDecidesAlways(t: Tables, plan: Plan, runs: seq<Run>, index: nat, pair: PairId, display: string,
      actor: Uuid, ack: CommitAck)
    requires (forall k :: 0 <= k < |runs| ==> RunOk(plan, runs[k])) && Sound(t) && AllExact(t) && Paired(t) && PlanValid(plan)
    requires PairAccepted(RanAll(t, plan, runs), plan, index, pair, display, actor)
    ensures var u := RanAll(t, plan, runs);
            && PairReport(u, plan, index, pair, display, actor, ack, Rereads(true, true)) == (if ack.LostNotApplied? then RolledBack else Committed)
            && PairReport(PairWritten(u, plan, index, pair, display, actor), plan, index, pair, display, actor, ack, Rereads(true, true)) == NoOp
  {
    hide Sound, AllExact, HistoryKept, RanAll, PairReport, PairWritten, SummaryAudits, CompletedSummaries, PlanValid,
         RunOk;
    LogExactAlways(t, plan, runs);
    PairedAlways(t, plan, runs);
    var u := RanAll(t, plan, runs);
    assert |CompletedSummaries(u, actor, MigrationOf(pair))| == 0;
    assert SummaryAudits(u, actor, MigrationOf(pair)) == {};
    P.ReportDecides(u, plan, index, pair, display, actor, ack);
    P.RerunWritesNothing(u, plan, index, pair, display, actor, ack, Rereads(true, true));
  }
}
