/** The closed scopes of the cutover: gates on the canaries, the loop over the selected pairs,
    resumption after any interruption, and the canary order over whole histories. */
module CutoverScope {
  import opened Identifiers
  import opened Ledger
  import opened EventLog
  import opened Store
  import opened Cutover
  import opened CutoverPairs
  import Bindings
  import V = CutoverRecovery

  const BUILD_AGENT := "agt_build-in-public-agent"
  const EFFICIENCY_AGENT := "agt_efficiency-agent"

  datatype Scope = Build | Efficiency | RemainingFleet

  /** The display names of the pairs whose Auth rows match the plan; other pairs are drift. */
  type Auth = map<PairId, string>

  /** How the commit of one pair ends and which re-reads can be made. */
  datatype Fate = Fate(ack: CommitAck, rereads: Rereads)

  const Undisturbed := Fate(Acked, Rereads(true, true))

  datatype Verdict = Failed | Finished(committed: nat, noops: nat)

  predicate Selected(scope: Scope, pair: PairId) {
    match scope
    case Build => pair.newAgent == BUILD_AGENT
    case Efficiency => pair.newAgent == EFFICIENCY_AGENT
    case RemainingFleet => pair.newAgent != BUILD_AGENT && pair.newAgent != EFFICIENCY_AGENT
  }

  /** The three scopes partition every fleet. */
  lemma ScopesPartition(pair: PairId)
    ensures exists s :: Selected(s, pair)
    ensures forall s, r :: Selected(s, pair) && Selected(r, pair) ==> s == r
  {
    assert Selected(if pair.newAgent == BUILD_AGENT then Build else if pair.newAgent == EFFICIENCY_AGENT then Efficiency else RemainingFleet, pair);
  }

  predicate InFleet(plan: Plan, p: Uuid) {
    exists k :: 0 <= k < |plan.pairs| && (plan.pairs[k].oldPrincipal == p || plan.pairs[k].newPrincipal == p)
  }

  predicate ActorOk(t: Tables, plan: Plan, actor: Uuid, excluded: Uuid) {
    actor in t.principals && t.principals[actor].enabled && actor != excluded && !InFleet(plan, actor)
  }

  /** The first pair whose new agent has this id. */
  function Find(pairs: seq<PairId>, agent: string): (r: Option<PairId>)
    ensures r.Some? ==> r.value in pairs && r.value.newAgent == agent
    ensures r.None? ==> forall p :: p in pairs ==> p.newAgent != agent
  {
    if pairs == [] then None else if pairs[0].newAgent == agent then Some(pairs[0]) else Find(pairs[1..], agent)
  }

  predicate Gate(t: Tables, plan: Plan, agent: string, actor: Uuid, auth: Auth) {
    var pair := Find(plan.pairs, agent);
    pair.Some? && pair.value in auth && TerminalExact(t, plan, pair.value, auth[pair.value], actor)
  }

  predicate Admitted(t: Tables, plan: Plan, scope: Scope, actor: Uuid, excluded: Uuid, auth: Auth) {
    && ActorOk(t, plan, actor, excluded)
    && (scope != Build ==> Gate(t, plan, BUILD_AGENT, actor, auth))
    && (scope == RemainingFleet ==> Gate(t, plan, EFFICIENCY_AGENT, actor, auth))
  }

  /** The loop over the pairs from index `i` on, each with its fate, until the process stops
      before pair `limit`.  An error ends the run. */
  function RunPairs(t: Tables, plan: Plan, scope: Scope, i: nat, actor: Uuid, auth: Auth, fates: seq<Fate>,
      limit: nat): (Tables, Verdict)
    requires i <= |plan.pairs| == |fates|
    decreases |plan.pairs| - i
  {
    if i == |plan.pairs| then (t, Finished(0, 0))
    else if limit <= i then (t, Failed)
    else
      var pair := plan.pairs[i];
      if !Selected(scope, pair) then RunPairs(t, plan, scope, i + 1, actor, auth, fates, limit)
      else if pair !in auth then (t, Failed)
      else
        var u := PairResult(t, plan, i + 1, pair, auth[pair], actor, fates[i].ack);
        var outcome := PairReport(t, plan, i + 1, pair, auth[pair], actor, fates[i].ack, fates[i].rereads);
        var rest := RunPairs(u, plan, scope, i + 1, actor, auth, fates, limit);
        if outcome == Committed then (rest.0, Counted(rest.1, 1, 0))
        else if outcome == NoOp then (rest.0, Counted(rest.1, 0, 1))
        else (u, Failed)
  }

  function Counted(v: Verdict, committed: nat, noops: nat): Verdict {
    if v.Failed? then v else Finished(v.committed + committed, v.noops + noops)
  }

  function RunScope(t: Tables, plan: Plan, scope: Scope, actor: Uuid, excluded: Uuid, auth: Auth, fates: seq<Fate>,
      limit: nat): (Tables, Verdict)
    requires |plan.pairs| == |fates|
  {
    if Admitted(t, plan, scope, actor, excluded, auth) then RunPairs(t, plan, scope, 0, actor, auth, fates, limit) else (t, Failed)
  }

  method CheckGate(db: Database, plan: Plan, agent: string, actor: Uuid, auth: Auth) returns (ok: bool)
    ensures ok <==> Gate(db.durable, plan, agent, actor, auth)
  {
    var pair := Find(plan.pairs, agent);
    if pair.None? || pair.value !in auth {
      return false;
    }
    ok := CheckTerminalExact(db, plan, pair.value, auth[pair.value], actor);
  }

  method ApplyScope(db: Database, plan: Plan, scope: Scope, actor: Uuid, excluded: Uuid, auth: Auth, fates: seq<Fate>,
      limit: nat)
    returns (verdict: Verdict)
    requires |plan.pairs| == |fates|
    modifies db
    ensures (db.durable, verdict) == RunScope(old(db.durable), plan, scope, actor, excluded, auth, fates, limit)
  {
    hide RunPairs, TerminalExact, ActorOk, Gate;
    if !ActorOk(db.durable, plan, actor, excluded) {
      return Failed;
    }
    if scope != Build {
      var ok := CheckGate(db, plan, BUILD_AGENT, actor, auth);
      if !ok { return Failed; }
    }
    if scope == RemainingFleet {
      var ok := CheckGate(db, plan, EFFICIENCY_AGENT, actor, auth);
      if !ok { return Failed; }
    }
    verdict := ApplyPairs(db, plan, scope, actor, auth, fates, limit);
  }

  method ApplyPairs(db: Database, plan: Plan, scope: Scope, actor: Uuid, auth: Auth, fates: seq<Fate>,
      limit: nat) returns (verdict: Verdict)
    requires |plan.pairs| == |fates|
    modifies db
    ensures (db.durable, verdict) == RunPairs(old(db.durable), plan, scope, 0, actor, auth, fates, limit)
  {
    hide PairResult, PairReport, Selected;
    var committed, noops := 0, 0;
    ghost var goal := RunPairs(db.durable, plan, scope, 0, actor, auth, fates, limit);
    for i := 0 to |plan.pairs|
      invariant goal.0 == RunPairs(db.durable, plan, scope, i, actor, auth, fates, limit).0
      invariant goal.1 == Counted(RunPairs(db.durable, plan, scope, i, actor, auth, fates, limit).1, committed, noops)
    {
      if limit <= i {
        return Failed;
      }
      var pair := plan.pairs[i];
      if Selected(scope, pair) {
        if pair !in auth {
          return Failed;
        }
        var outcome := ApplyPair(db, plan, i + 1, pair, auth[pair], actor, fates[i].ack, fates[i].rereads);
        match outcome
        case Committed => committed := committed + 1;
        case NoOp => noops := noops + 1;
        case _ => return Failed;
      }
    }
    return Finished(committed, noops);
  }

  // ---------------------------------------------------------------------------
  // What every run keeps
  // ---------------------------------------------------------------------------

  /** One pair with any fate. */
  lemma ResultKeepsLog(t: Tables, plan: Plan, index: nat, pair: PairId, display: string, actor: Uuid, ack: CommitAck)
    requires Sound(t) && AllExact(t)
    ensures var u := PairResult(t, plan, index, pair, display, actor, ack);
            Sound(u) && AllExact(u) && HistoryKept(t, u) && u.instances.Keys == t.instances.Keys
  {
    hide Sound, AllExact, HistoryKept, PairAccepted, PairWritten;
    HistoryKeptReflexive(t);
    if PairAccepted(t, plan, index, pair, display, actor) {
      PairKeepsLog(t, plan, index, pair, display, actor);
    }
  }

  /** Whatever fates the commits meet and wherever the run stops: the schema, the exact logs and
      the history are kept, and so is the number of enabled bindings of every role. */
  lemma {:induction false} RunKeepsLog(t: Tables, plan: Plan, scope: Scope, i: nat, actor: Uuid, auth: Auth,
      fates: seq<Fate>, limit: nat, domain: Uuid, role: string)
    requires i <= |plan.pairs| == |fates| && Sound(t) && AllExact(t)
    ensures var u := RunPairs(t, plan, scope, i, actor, auth, fates, limit).0;
            && Sound(u) && AllExact(u) && HistoryKept(t, u) && u.instances.Keys == t.instances.Keys
            && |Bindings.Holders(u.bindings, domain, role)| == |Bindings.Holders(t.bindings, domain, role)|
    decreases |plan.pairs| - i
  {
    hide Sound, AllExact, HistoryKept, PairResult, PairReport, Bindings.Holders;
    HistoryKeptReflexive(t);
    if i < |plan.pairs| && i < limit {
      var pair := plan.pairs[i];
      if !Selected(scope, pair) {
        RunKeepsLog(t, plan, scope, i + 1, actor, auth, fates, limit, domain, role);
      } else if pair in auth {
        var u := PairResult(t, plan, i + 1, pair, auth[pair], actor, fates[i].ack);
        ResultKeepsLog(t, plan, i + 1, pair, auth[pair], actor, fates[i].ack);
        PairConservesBindings(t, plan, i + 1, pair, auth[pair], actor, fates[i].ack, domain, role);
        RunKeepsLog(u, plan, scope, i + 1, actor, auth, fates, limit, domain, role);
        HistoryKeptTransitive(t, u, RunPairs(u, plan, scope, i + 1, actor, auth, fates, limit).0);
      }
    }
  }

  /** No run makes an instance unrecoverable: the replay allowlist is the fleet itself. */
  lemma {:induction false} RunRebuildable(t: Tables, plan: Plan, scope: Scope, i: nat, actor: Uuid, auth: Auth,
      fates: seq<Fate>, limit: nat, w: Uuid)
    requires i <= |plan.pairs| == |fates| && Sound(t) && AllExact(t) && !InFleet(plan, actor)
    requires w in t.instances && Rebuildable(t, plan.pairs, w)
    ensures var u := RunPairs(t, plan, scope, i, actor, auth, fates, limit).0; w in u.instances && Rebuildable(u, plan.pairs, w)
    decreases |plan.pairs| - i
  {
    hide Sound, AllExact, HistoryKept, PairAccepted, PairWritten, PairReport, Rebuildable;
    if i < |plan.pairs| && i < limit {
      var pair := plan.pairs[i];
      if !Selected(scope, pair) {
        RunRebuildable(t, plan, scope, i + 1, actor, auth, fates, limit, w);
      } else if pair in auth {
        var u := PairResult(t, plan, i + 1, pair, auth[pair], actor, fates[i].ack);
        ResultKeepsLog(t, plan, i + 1, pair, auth[pair], actor, fates[i].ack);
        if u != t {
          PairRebuildable(t, plan, i + 1, pair, auth[pair], actor, plan.pairs, w);
        }
        RunRebuildable(u, plan, scope, i + 1, actor, auth, fates, limit, w);
      }
    }
  }

  // ---------------------------------------------------------------------------
  // Resumption
  // ---------------------------------------------------------------------------

  ghost predicate FleetDisjoint(plan: Plan) {
    forall j, k :: 0 <= j < |plan.pairs| && 0 <= k < |plan.pairs| && j != k ==> Disjoint(plan.pairs[j], plan.pairs[k])
  }

  /** A finished pair survives every pair of a run it is disjoint from. */
  lemma {:induction false} TerminalSurvives(t: Tables, plan: Plan, scope: Scope, i: nat, actor: Uuid, auth: Auth,
      fates: seq<Fate>, limit: nat, q: PairId, display: string)
    requires i <= |plan.pairs| == |fates| && PlanValid(plan) && Sound(t) && AllExact(t)
    requires forall k :: i <= k < |plan.pairs| && Selected(scope, plan.pairs[k]) ==> Disjoint(plan.pairs[k], q)
    requires TerminalExact(t, plan, q, display, actor)
    ensures TerminalExact(RunPairs(t, plan, scope, i, actor, auth, fates, limit).0, plan, q, display, actor)
    decreases |plan.pairs| - i
  {
    hide Sound, AllExact, HistoryKept, PairAccepted, PairWritten, PairReport, TerminalExact, Disjoint, PlanValid;
    if i < |plan.pairs| && i < limit {
      var pair := plan.pairs[i];
      if !Selected(scope, pair) {
        TerminalSurvives(t, plan, scope, i + 1, actor, auth, fates, limit, q, display);
      } else if pair in auth {
        var u := PairResult(t, plan, i + 1, pair, auth[pair], actor, fates[i].ack);
        ResultKeepsLog(t, plan, i + 1, pair, auth[pair], actor, fates[i].ack);
        if u != t {
          OtherPairKept(t, plan, i + 1, pair, q, auth[pair], actor, display, actor);
        }
        TerminalSurvives(u, plan, scope, i + 1, actor, auth, fates, limit, q, display);
      }
    }
  }

  /** The undisturbed run from pair `i` on: the tables it leaves, and whether it finishes. */
  function Full(t: Tables, plan: Plan, scope: Scope, i: nat, actor: Uuid, auth: Auth): (Tables, bool)
    requires i <= |plan.pairs|
  {
    var run := RunPairs(t, plan, scope, i, actor, auth, seq(|plan.pairs|, _ => Undisturbed), |plan.pairs|);
    (run.0, run.1.Finished?)
  }

  /** How many pairs from `i` on the scope selects. */
  function SelectedFrom(plan: Plan, scope: Scope, i: nat): nat
    requires i <= |plan.pairs|
    decreases |plan.pairs| - i
  {
    if i == |plan.pairs| then 0 else (if Selected(scope, plan.pairs[i]) then 1 else 0) + SelectedFrom(plan, scope, i + 1)
  }

  /** A finished run counts every selected pair once, as committed or as no-op. */
  lemma {:induction false} CountsAddUp(t: Tables, plan: Plan, scope: Scope, i: nat, actor: Uuid, auth: Auth,
      fates: seq<Fate>, limit: nat)
    requires i <= |plan.pairs| == |fates|
    ensures var v := RunPairs(t, plan, scope, i, actor, auth, fates, limit).1;
            v.Finished? ==> v.committed + v.noops == SelectedFrom(plan, scope, i)
    decreases |plan.pairs| - i
  {
    hide PairResult, PairReport, Selected;
    if i < |plan.pairs| {
      var p := plan.pairs[i];
      CountsAddUp(t, plan, scope, i + 1, actor, auth, fates, limit);
      if p in auth {
        CountsAddUp(PairResult(t, plan, i + 1, p, auth[p], actor, fates[i].ack), plan, scope, i + 1, actor, auth, fates, limit);
      }
    }
  }

  lemma FullStep(t: Tables, plan: Plan, scope: Scope, i: nat, actor: Uuid, auth: Auth)
    requires i < |plan.pairs| && Selected(scope, plan.pairs[i]) && plan.pairs[i] in auth
    ensures var p := plan.pairs[i];
            var u := PairResult(t, plan, i + 1, p, auth[p], actor, Acked);
            var o := PairReport(t, plan, i + 1, p, auth[p], actor, Acked, Rereads(true, true));
            Full(t, plan, scope, i, actor, auth) == if o == Committed || o == NoOp then Full(u, plan, scope, i + 1, actor, auth) else (u, false)
  {
    hide PairResult, PairReport;
  }

  /** A pair that shows its exact end state is a NOOP. */
  lemma TerminalIsNoop(t: Tables, plan: Plan, index: nat, pair: PairId, display: string, actor: Uuid, ack: CommitAck)
    requires TerminalExact(t, plan, pair, display, actor)
    ensures PairResult(t, plan, index, pair, display, actor, ack) == t
    ensures PairReport(t, plan, index, pair, display, actor, ack, Rereads(true, true)) == NoOp
  {
  }

  lemma SkipStep(t: Tables, plan: Plan, scope: Scope, i: nat, actor: Uuid, auth: Auth)
    requires i < |plan.pairs| && !Selected(scope, plan.pairs[i])
    ensures Full(t, plan, scope, i, actor, auth) == Full(t, plan, scope, i + 1, actor, auth)
  {
  }

  /** A pair reported finished is finished alike by the undisturbed run. */
  lemma FinishedStep(t: Tables, plan: Plan, index: nat, p: PairId, display: string, actor: Uuid, fate: Fate)
    requires PlanValid(plan) && Sound(t) && AllExact(t)
    requires PairReport(t, plan, index, p, display, actor, fate.ack, fate.rereads) in {Committed, NoOp}
    ensures PairResult(t, plan, index, p, display, actor, Acked) == PairResult(t, plan, index, p, display, actor, fate.ack)
    ensures PairReport(t, plan, index, p, display, actor, Acked, Rereads(true, true)) in {Committed, NoOp}
  {
    hide Sound, AllExact, TerminalExact, PairAccepted, PairWritten, PreExact, EarlierAudit;
    ReportIsSound(t, plan, index, p, display, actor, fate.ack, fate.rereads);
  }

  /** A pair that was written but not reported finished: both runs stop there, or both go on. */
  lemma UnreportedStep(t: Tables, plan: Plan, index: nat, p: PairId, display: string, actor: Uuid, ack: CommitAck)
    requires PlanValid(plan) && Sound(t) && AllExact(t)
    ensures var u := PairResult(t, plan, index, p, display, actor, ack);
            u != t ==>
              && PairResult(t, plan, index, p, display, actor, Acked) == u && PairResult(u, plan, index, p, display, actor, Acked) == u
              && (PairReport(t, plan, index, p, display, actor, Acked, Rereads(true, true)) in {Committed, NoOp}
                  <==> PairReport(u, plan, index, p, display, actor, Acked, Rereads(true, true)) in {Committed, NoOp})
  {
    var u := PairResult(t, plan, index, p, display, actor, ack);
    hide Sound, AllExact, TerminalExact, PairWritten, PreExact, EarlierAudit, PairReport;
    if u != t {
      RerunWritesNothing(t, plan, index, p, display, actor, Acked, Rereads(true, true));
      ReportDecides(t, plan, index, p, display, actor, Acked);
    }
  }

  /** Rerunning after any interruption -- lost commits, failed re-reads, a process that stops at
      any pair -- ends in the state of the uninterrupted run. */
  lemma {:induction false} PairsResume(t: Tables, plan: Plan, scope: Scope, i: nat, actor: Uuid, auth: Auth,
      fates: seq<Fate>, limit: nat)
    requires i <= |plan.pairs| == |fates| && PlanValid(plan) && FleetDisjoint(plan) && Sound(t) && AllExact(t)
    ensures Full(RunPairs(t, plan, scope, i, actor, auth, fates, limit).0, plan, scope, i, actor, auth) == Full(t, plan, scope, i, actor, auth)
    decreases |plan.pairs| - i
  {
    hide Sound, AllExact, HistoryKept, PairResult, PairReport, TerminalExact, Disjoint, PlanValid, Full,
         PairAccepted, EarlierAudit, PreExact;
    if i < |plan.pairs| && i < limit {
      var p := plan.pairs[i];
      if !Selected(scope, p) {
        SkipStep(t, plan, scope, i, actor, auth);
        SkipStep(RunPairs(t, plan, scope, i, actor, auth, fates, limit).0, plan, scope, i, actor, auth);
        PairsResume(t, plan, scope, i + 1, actor, auth, fates, limit);
      } else if p in auth {
        var u := PairResult(t, plan, i + 1, p, auth[p], actor, fates[i].ack);
        if PairReport(t, plan, i + 1, p, auth[p], actor, fates[i].ack, fates[i].rereads) in {Committed, NoOp} {
          ResultKeepsLog(t, plan, i + 1, p, auth[p], actor, fates[i].ack);
          PairsResume(u, plan, scope, i + 1, actor, auth, fates, limit);
          FinishedIsTerminal(t, plan, i + 1, p, auth[p], actor, fates[i]);
          TerminalSurvives(u, plan, scope, i + 1, actor, auth, fates, limit, p, auth[p]);
          FinishedResumes(t, plan, scope, i, actor, auth, fates[i], RunPairs(u, plan, scope, i + 1, actor, auth, fates, limit).0);
        } else {
          UnfinishedResumes(t, plan, scope, i, actor, auth, fates[i]);
        }
      }
    }
  }

  lemma FinishedIsTerminal(t: Tables, plan: Plan, index: nat, p: PairId, display: string, actor: Uuid, fate: Fate)
    requires PlanValid(plan) && Sound(t) && AllExact(t)
    requires PairReport(t, plan, index, p, display, actor, fate.ack, fate.rereads) in {Committed, NoOp}
    ensures TerminalExact(PairResult(t, plan, index, p, display, actor, fate.ack), plan, p, display, actor)
  {
    hide Sound, AllExact, PairReport, TerminalExact, PairResult, PlanValid;
    ReportIsSound(t, plan, index, p, display, actor, fate.ack, fate.rereads);
  }

  lemma FinishedResumes(t: Tables, plan: Plan, scope: Scope, i: nat, actor: Uuid, auth: Auth, fate: Fate, x: Tables)
    requires PlanValid(plan) && Sound(t) && AllExact(t) && i < |plan.pairs| && Selected(scope, plan.pairs[i]) && plan.pairs[i] in auth
    requires var p := plan.pairs[i];
             && PairReport(t, plan, i + 1, p, auth[p], actor, fate.ack, fate.rereads) in {Committed, NoOp}
             && TerminalExact(x, plan, p, auth[p], actor)
             && Full(x, plan, scope, i + 1, actor, auth)
                == Full(PairResult(t, plan, i + 1, p, auth[p], actor, fate.ack), plan, scope, i + 1, actor, auth)
    ensures Full(x, plan, scope, i, actor, auth) == Full(t, plan, scope, i, actor, auth)
  {
    hide Sound, AllExact, PairReport, TerminalExact, PairResult, PlanValid, Full;
    var p := plan.pairs[i];
    FullStep(t, plan, scope, i, actor, auth);
    FullStep(x, plan, scope, i, actor, auth);
    TerminalIsNoop(x, plan, i + 1, p, auth[p], actor, Acked);
    FinishedStep(t, plan, i + 1, p, auth[p], actor, fate);
  }

  lemma UnfinishedResumes(t: Tables, plan: Plan, scope: Scope, i: nat, actor: Uuid, auth: Auth, fate: Fate)
    requires PlanValid(plan) && Sound(t) && AllExact(t) && i < |plan.pairs| && Selected(scope, plan.pairs[i]) && plan.pairs[i] in auth
    ensures var p := plan.pairs[i];
            Full(PairResult(t, plan, i + 1, p, auth[p], actor, fate.ack), plan, scope, i, actor, auth) == Full(t, plan, scope, i, actor, auth)
  {
    hide Sound, AllExact, PairReport, TerminalExact, PairResult, PlanValid, Full;
    var p := plan.pairs[i];
    var u := PairResult(t, plan, i + 1, p, auth[p], actor, fate.ack);
    if u != t {
      FullStep(t, plan, scope, i, actor, auth);
      FullStep(u, plan, scope, i, actor, auth);
      UnreportedStep(t, plan, i + 1, p, auth[p], actor, fate.ack);
    }
  }

  /** The fleet's operator keeps its admission through its own run. */
  lemma AdmissionSurvives(t: Tables, plan: Plan, scope: Scope, actor: Uuid, excluded: Uuid, auth: Auth,
      fates: seq<Fate>, limit: nat)
    requires |plan.pairs| == |fates| && PlanValid(plan) && FleetDisjoint(plan) && Sound(t) && AllExact(t)
    requires Admitted(t, plan, scope, actor, excluded, auth)
    ensures Admitted(RunPairs(t, plan, scope, 0, actor, auth, fates, limit).0, plan, scope, actor, excluded, auth)
  {
    hide Sound, AllExact, TerminalExact, RunPairs, PlanValid, Disjoint;
    ActorSurvives(t, plan, scope, 0, actor, auth, fates, limit);
    forall agent | agent in {BUILD_AGENT, EFFICIENCY_AGENT} && Gate(t, plan, agent, actor, auth)
                   && (agent == BUILD_AGENT ==> scope != Build) && (agent == EFFICIENCY_AGENT ==> scope == RemainingFleet)
      ensures Gate(RunPairs(t, plan, scope, 0, actor, auth, fates, limit).0, plan, agent, actor, auth)
    {
      var q := Find(plan.pairs, agent).value;
      TerminalSurvives(t, plan, scope, 0, actor, auth, fates, limit, q, auth[q]);
    }
    assert BUILD_AGENT in {BUILD_AGENT, EFFICIENCY_AGENT} && EFFICIENCY_AGENT in {BUILD_AGENT, EFFICIENCY_AGENT};
  }

  lemma {:induction false} ActorSurvives(t: Tables, plan: Plan, scope: Scope, i: nat, actor: Uuid, auth: Auth,
      fates: seq<Fate>, limit: nat)
    requires i <= |plan.pairs| == |fates| && Sound(t) && AllExact(t) && actor in t.principals
    ensures var u := RunPairs(t, plan, scope, i, actor, auth, fates, limit).0; actor in u.principals && u.principals[actor] == t.principals[actor]
    decreases |plan.pairs| - i
  {
    hide Sound, AllExact, PairAccepted, PairWritten, PairReport;
    if i < |plan.pairs| && i < limit {
      var pair := plan.pairs[i];
      if !Selected(scope, pair) {
        ActorSurvives(t, plan, scope, i + 1, actor, auth, fates, limit);
      } else if pair in auth {
        var u := PairResult(t, plan, i + 1, pair, auth[pair], actor, fates[i].ack);
        ResultKeepsLog(t, plan, i + 1, pair, auth[pair], actor, fates[i].ack);
        if u != t {
          PrincipalsKept(t, plan, i + 1, pair, auth[pair], actor);
        }
        ActorSurvives(u, plan, scope, i + 1, actor, auth, fates, limit);
      }
    }
  }

  /** The whole operator: an interrupted scope run, rerun, equals the uninterrupted run in the
      tables it leaves and in whether it finishes; then its counts cover every selected pair. */
  lemma ScopeResumes(t: Tables, plan: Plan, scope: Scope, actor: Uuid, excluded: Uuid, auth: Auth, fates: seq<Fate>,
      limit: nat)
    requires |plan.pairs| == |fates| && PlanValid(plan) && FleetDisjoint(plan) && Sound(t) && AllExact(t)
    ensures var calm := seq(|plan.pairs|, _ => Undisturbed);
            var u := RunScope(t, plan, scope, actor, excluded, auth, fates, limit).0;
            var rerun, straight := RunScope(u, plan, scope, actor, excluded, auth, calm, |plan.pairs|),
                                   RunScope(t, plan, scope, actor, excluded, auth, calm, |plan.pairs|);
            && rerun.0 == straight.0
            && (rerun.1.Finished? <==> straight.1.Finished?)
            && (rerun.1.Finished? ==> rerun.1.committed + rerun.1.noops == SelectedFrom(plan, scope, 0)
                                      && straight.1.committed + straight.1.noops == SelectedFrom(plan, scope, 0))
  {
    hide Sound, AllExact, RunPairs, PlanValid, FleetDisjoint, Admitted;
    if Admitted(t, plan, scope, actor, excluded, auth) {
      var calm := seq(|plan.pairs|, _ => Undisturbed);
      var u := RunPairs(t, plan, scope, 0, actor, auth, fates, limit).0;
      PairsResume(t, plan, scope, 0, actor, auth, fates, limit);
      AdmissionSurvives(t, plan, scope, actor, excluded, auth, fates, limit);
      CountsAddUp(t, plan, scope, 0, actor, auth, calm, |plan.pairs|);
      CountsAddUp(u, plan, scope, 0, actor, auth, calm, |plan.pairs|);
    }
  }

  /** A run that finishes leaves every selected pair in its exact end state. */
  lemma {:induction false} FinishedAllTerminal(t: Tables, plan: Plan, scope: Scope, i: nat, actor: Uuid, auth: Auth,
      fates: seq<Fate>, limit: nat, k: nat)
    requires i <= k < |plan.pairs| == |fates| && PlanValid(plan) && FleetDisjoint(plan) && Sound(t) && AllExact(t)
    requires Selected(scope, plan.pairs[k]) && RunPairs(t, plan, scope, i, actor, auth, fates, limit).1.Finished?
    ensures plan.pairs[k] in auth
    ensures TerminalExact(RunPairs(t, plan, scope, i, actor, auth, fates, limit).0, plan, plan.pairs[k], auth[plan.pairs[k]], actor)
    decreases |plan.pairs| - i
  {
    hide Sound, AllExact, HistoryKept, PairResult, PairReport, TerminalExact, Disjoint, PlanValid;
    var p := plan.pairs[i];
    if !Selected(scope, p) {
      FinishedAllTerminal(t, plan, scope, i + 1, actor, auth, fates, limit, k);
    } else {
      var u := PairResult(t, plan, i + 1, p, auth[p], actor, fates[i].ack);
      ResultKeepsLog(t, plan, i + 1, p, auth[p], actor, fates[i].ack);
      if i == k {
        FinishedIsTerminal(t, plan, i + 1, p, auth[p], actor, fates[i]);
        TerminalSurvives(u, plan, scope, i + 1, actor, auth, fates, limit, p, auth[p]);
      } else {
        FinishedAllTerminal(u, plan, scope, i + 1, actor, auth, fates, limit, k);
      }
    }
  }
}
