/** What the cutover reads and decides, read off the columns of the tables. */
module CutoverColumns {
  import opened Identifiers
  import opened Ledger
  import opened EventLog
  import opened Store
  import opened Cutover
  import opened CutoverScope
  import Bindings
  import P = CutoverPairs
  import R = CutoverResponsibilities

  /** The instance `w` stands at its visit `v` of node `n`. */
  ghost predicate JoinedAt(t: Tables, w: Uuid, v: Uuid, n: Uuid) {
    w in t.instances && t.instances[w].visit == Some(v) && v in t.visits && t.visits[v].node == n && n in t.nodes
  }

  /** The planned source visit still shows the old principal. */
  ghost predicate SourceShows(t: Tables, r: Responsibility) {
    r.visit in t.visits && t.visits[r.visit].workflow == r.workflow && t.visits[r.visit].node == r.node
    && t.visits[r.visit].assignee == Some(r.oldPrincipal)
  }

  // ---------------------------------------------------------------------------
  // Responsibilities
  // ---------------------------------------------------------------------------

  /** Which state a tuple shows: over is cancelled, archived, or at a terminal node. */
  lemma StatesExactly(t: Tables, r: Responsibility, v: Uuid, n: Uuid)
    requires JoinedAt(t, r.workflow, v, n)
    ensures var i, s := t.instances[r.workflow], Slot(r.workflow, r.version + 1);
            var over := i.cancelled || i.archived || t.nodes[n].kind == "TERMINAL";
            var placed := t.nodes[n].definitionVersion == i.definitionVersion && i.domain == r.domain;
            && (ResponsibilityState(t, r) == Skip <==> placed && over && SourceShows(t, r))
            && (ResponsibilityState(t, r) == Pre <==> placed && !over && v == r.visit && n == r.node && i.version == r.version
                                                      && t.visits[v].assignee == Some(r.oldPrincipal))
            && (ResponsibilityState(t, r) == Ready
                <==> && placed && !over && n == r.node && i.version == r.version + 1 && t.visits[v].assignee == Some(r.newPrincipal)
                     && s in t.events && t.events[s].kind.SuccessorMigration? && t.events[s].source == Some(r.visit)
                     && t.events[s].target == Some(v) && t.events[s].oldVersion == r.version && t.events[s].newVersion == r.version + 1)
  {
  }

  lemma UnjoinedDrifts(t: Tables, r: Responsibility)
    requires forall v, n :: !JoinedAt(t, r.workflow, v, n)
    ensures ResponsibilityState(t, r) == Drift
    ensures forall pair, index, actor :: !TupleAccepted(t, pair, index, r, actor)
  {
    if Joined(t, r.workflow) {
      assert JoinedAt(t, r.workflow, t.instances[r.workflow].visit.value, t.visits[t.instances[r.workflow].visit.value].node);
    }
  }

  /** Which tuple is skipped, which is migrated, and which stops the pair.  A closed instance is
      never written, wherever its version stands; an open one is written or stops the pair. */
  lemma MigratesExactly(t: Tables, pair: PairId, index: nat, r: Responsibility, actor: Uuid, v: Uuid, n: Uuid)
    requires Sound(t) && AllExact(t) && R.Principals(t, pair, actor) && JoinedAt(t, r.workflow, v, n)
    ensures var i := t.instances[r.workflow];
            var over := i.cancelled || i.archived || t.nodes[n].kind == "TERMINAL";
            var accepted, u := TupleAccepted(t, pair, index, r, actor), TupleWritten(t, pair, index, r, actor);
            && (over ==> (accepted <==> i.domain == r.domain && SourceShows(t, r)) && (accepted ==> u == t))
            && (!over ==>
                  (accepted <==> && i.domain == r.domain && v == r.visit && n == r.node && i.version == r.version
                                 && t.visits[v].assignee == Some(r.oldPrincipal) && v !in t.openAssistance && R.IdsFree(t, pair, index, r, actor))
                  && (accepted ==> r.workflow in u.instances && u.instances[r.workflow].version == i.version + 1))
            && (accepted ==> (Passed(t, r) <==> over))
            && (accepted ==> MigratedCount(t, pair, index, [r], actor) == if over then 0 else 1)
  {
    hide Sound, AllExact, R.IdsFree, VisitInsertable, ReceiptInsertable;
    R.OneAccepted(t, pair, index, r, actor);
    assert [r][1..] == [];
  }

  // ---------------------------------------------------------------------------
  // Roles and principals
  // ---------------------------------------------------------------------------

  lemma RolesExactly(domains: map<Uuid, Domain>, b: Bindings.Table, d: DomainTuple)
    ensures var was, will := Bindings.Key(d.domain, d.oldPrincipal, d.role), Bindings.Key(d.domain, d.newPrincipal, d.role);
            var known := d.domain in domains && domains[d.domain].enabled && domains[d.domain].key == d.domainKey;
            && (DomainState(domains, b, d) == Pre <==> known && was in b && b[was].enabled && (will in b ==> !b[will].enabled))
            && (DomainState(domains, b, d) == Ready <==> known && was in b && !b[was].enabled && will in b && b[will].enabled)
            && DomainState(domains, b, d) in {Pre, Ready, Drift}
  {
  }

  ghost predicate ShowsAgent(t: Tables, p: Uuid, display: string) {
    p in t.principals && t.principals[p].kind == "AGENT" && t.principals[p].enabled && t.principals[p].display == display
  }

  /** The receipt that sums up a migration. */
  ghost predicate IsSummary(r: Receipt, actor: Uuid, pair: PairId) {
    r.principal == actor && r.commandType == "PRINCIPAL_SUCCESSOR_MIGRATION_V1"
    && r.key == SummaryKey(MigrationId(pair.oldPrincipal, pair.newPrincipal))
  }

  ghost predicate IsSummaryAudit(a: Audit, actor: Uuid, pair: PairId) {
    a.principal == actor && a.action == "PRINCIPAL_SUCCESSOR_MIGRATION_V1_COMMITTED"
    && a.resource == CutoverOf(MigrationId(pair.oldPrincipal, pair.newPrincipal))
  }

  /** The exact preimage: the new principal absent or as Auth shows it, every tuple in its first
      state or passed, and no record of the migration. */
  lemma PreExactly(t: Tables, plan: Plan, pair: PairId, display: string, actor: Uuid)
    ensures PreExact(t, plan, pair, display, actor)
       <==> && (pair.newPrincipal !in t.principals || ShowsAgent(t, pair.newPrincipal, display))
            && (forall d :: d in plan.domains && d.oldPrincipal == pair.oldPrincipal && d.newPrincipal == pair.newPrincipal ==>
                  DomainState(t.domains, t.bindings, d) == Pre)
            && (forall r :: r in plan.responsibilities && r.oldPrincipal == pair.oldPrincipal && r.newPrincipal == pair.newPrincipal ==>
                  ResponsibilityState(t, r) in {Pre, Skip})
            && (forall c :: c in t.receipts ==> !IsSummary(t.receipts[c], actor, pair))
            && (forall a :: a in t.audits ==> !IsSummaryAudit(t.audits[a], actor, pair))
  {
    hide DomainState, ResponsibilityState;
    SummariesEmpty(t, pair, actor);
  }

  lemma SummariesEmpty(t: Tables, pair: PairId, actor: Uuid)
    ensures |Summaries(t, actor, MigrationOf(pair))| == 0 <==> forall c :: c in t.receipts ==> !IsSummary(t.receipts[c], actor, pair)
    ensures |SummaryAudits(t, actor, MigrationOf(pair))| == 0 <==> forall a :: a in t.audits ==> !IsSummaryAudit(t.audits[a], actor, pair)
  {
    var s, x := Summaries(t, actor, MigrationOf(pair)), SummaryAudits(t, actor, MigrationOf(pair));
    assert forall c :: c in s <==> c in t.receipts && IsSummary(t.receipts[c], actor, pair);
    assert forall a :: a in x <==> a in t.audits && IsSummaryAudit(t.audits[a], actor, pair);
    assert |s| == 0 ==> s == {};
    assert |x| == 0 ==> x == {};
  }

  /** The exact end state: the new principal as Auth shows it, every tuple in its last state or
      passed, and exactly one completed summary with exactly one audit. */
  lemma TerminalExactly(t: Tables, plan: Plan, pair: PairId, display: string, actor: Uuid)
    ensures TerminalExact(t, plan, pair, display, actor)
       <==> && ShowsAgent(t, pair.newPrincipal, display)
            && (forall d :: d in plan.domains && d.oldPrincipal == pair.oldPrincipal && d.newPrincipal == pair.newPrincipal ==>
                  DomainState(t.domains, t.bindings, d) == Ready)
            && (forall r :: r in plan.responsibilities && r.oldPrincipal == pair.oldPrincipal && r.newPrincipal == pair.newPrincipal ==>
                  ResponsibilityState(t, r) in {Ready, Skip})
            && (exists c :: && c in t.receipts && IsSummary(t.receipts[c], actor, pair) && t.receipts[c].response.Some?
                            && forall o :: o in t.receipts && IsSummary(t.receipts[o], actor, pair) && t.receipts[o].response.Some? ==> o == c)
            && (exists a :: && a in t.audits && IsSummaryAudit(t.audits[a], actor, pair)
                            && forall o :: o in t.audits && IsSummaryAudit(t.audits[o], actor, pair) ==> o == a)
  {
    hide DomainState, ResponsibilityState;
    OneSummary(t, pair, actor);
    OneAudit(t, pair, actor);
  }

  lemma OneSummary(t: Tables, pair: PairId, actor: Uuid)
    ensures |CompletedSummaries(t, actor, MigrationOf(pair))| == 1
       <==> exists c :: && c in t.receipts && IsSummary(t.receipts[c], actor, pair) && t.receipts[c].response.Some?
                        && forall o :: o in t.receipts && IsSummary(t.receipts[o], actor, pair) && t.receipts[o].response.Some? ==> o == c
  {
    var s := CompletedSummaries(t, actor, MigrationOf(pair));
    assert forall c :: c in s <==> c in t.receipts && IsSummary(t.receipts[c], actor, pair) && t.receipts[c].response.Some?;
    Singleton(s);
  }

  lemma OneAudit(t: Tables, pair: PairId, actor: Uuid)
    ensures |SummaryAudits(t, actor, MigrationOf(pair))| == 1
       <==> exists a :: && a in t.audits && IsSummaryAudit(t.audits[a], actor, pair)
                        && forall o :: o in t.audits && IsSummaryAudit(t.audits[o], actor, pair) ==> o == a
  {
    var s := SummaryAudits(t, actor, MigrationOf(pair));
    assert forall a :: a in s <==> a in t.audits && IsSummaryAudit(t.audits[a], actor, pair);
    Singleton(s);
  }

  lemma Singleton(s: set<Uuid>)
    ensures |s| == 1 <==> exists x :: x in s && forall y :: y in s ==> y == x
  {
    if |s| == 1 {
      var x :| x in s;
      assert |s - {x}| == 0;
      assert forall y :: y in s ==> y == x || y in s - {x};
    }
    if x :| x in s && forall y :: y in s ==> y == x {
      assert s == {x};
    }
  }

  // ---------------------------------------------------------------------------
  // The pair and the operator
  // ---------------------------------------------------------------------------

  /** What a committed pair needed of the principals, and what it leaves of them. */
  lemma CommitPrincipals(t: Tables, plan: Plan, index: nat, pair: PairId, display: string, actor: Uuid)
    requires Sound(t) && AllExact(t) && PairAccepted(t, plan, index, pair, display, actor)
    ensures var u := PairWritten(t, plan, index, pair, display, actor);
            && pair.oldPrincipal in t.principals && t.principals[pair.oldPrincipal].kind == "AGENT" && t.principals[pair.oldPrincipal].enabled
            && (pair.newPrincipal in t.principals ==> ShowsAgent(t, pair.newPrincipal, display))
            && ShowsAgent(u, pair.newPrincipal, display)
            && (forall p :: p in t.principals ==> p in u.principals && u.principals[p] == t.principals[p])
            && (forall p :: p in u.principals && p !in t.principals ==> p == pair.newPrincipal)
  {
    hide Sound, AllExact, HistoryKept, DomainsAccepted, TuplesAccepted, WithResponsibilities, WithDomains, Remaining,
         ReceiptInsertable, SameElsewhere, SummaryBody;
    P.Staged(t, plan, index, pair, display, actor);
    P.StagedAudits(t, plan, index, pair, display, actor);
  }

  /** What its records say: the summary and the audit count the domains, exactly the visits it
      added as migrated, and the other responsibilities as skipped. */
  lemma CommitRecords(t: Tables, plan: Plan, index: nat, pair: PairId, display: string, actor: Uuid)
    requires Sound(t) && AllExact(t) && PairAccepted(t, plan, index, pair, display, actor)
    ensures var u, rs := PairWritten(t, plan, index, pair, display, actor), ResponsibilitiesOf(plan.responsibilities, pair);
            var command, audit := Derived(CutoverPlan, SummaryCommand(index)), Derived(CutoverPlan, SummaryAudit(index));
            var migrated := |u.visits| - |t.visits|;
            && 0 <= migrated <= |rs| && command in u.receipts && audit in u.audits
            && var body := SummaryResponse(command, audit, index, |DomainsOf(plan.domains, pair)|, migrated, |rs| - migrated);
               && IsSummary(u.receipts[command], actor, pair) && u.receipts[command].response == Some((200, body))
               && IsSummaryAudit(u.audits[audit], actor, pair) && u.audits[audit].details == body
  {
    hide Sound, AllExact, PairAccepted, MigratedCount, WithResponsibilities, WithDomains;
    VisitsCount(t, plan, index, pair, display, actor);
  }

  lemma VisitsCount(t: Tables, plan: Plan, index: nat, pair: PairId, display: string, actor: Uuid)
    requires Sound(t) && AllExact(t) && PairAccepted(t, plan, index, pair, display, actor)
    ensures |WithResponsibilities(t, plan, index, pair, display, actor).visits|
         == |t.visits| + MigratedCount(WithDomains(t, plan, index, pair, display), pair, index, ResponsibilitiesOf(plan.responsibilities, pair), actor)
  {
    hide Sound, AllExact, HistoryKept, PairAccepted, DomainsAccepted, TuplesAccepted, TuplesWritten, MigratedCount,
         WithDomains, SameElsewhere;
    P.AcceptedStages(t, plan, index, pair, display, actor);
    P.DomainStage(t, plan, index, pair, display);
    P.DomainColumns(t, plan, index, pair, display);
    R.TuplesFrame(WithDomains(t, plan, index, pair, display), pair, index, ResponsibilitiesOf(plan.responsibilities, pair), actor);
  }

  /** Who may run the operator: an enabled principal that is neither the excluded identity nor a
      member of the fleet; and what the gates ask for. */
  lemma AdmittedExactly(t: Tables, plan: Plan, scope: Scope, actor: Uuid, excluded: Uuid, auth: Auth,
      fates: seq<Fate>, limit: nat)
    requires |plan.pairs| == |fates|
    ensures var may := && actor in t.principals && t.principals[actor].enabled && actor != excluded
                       && forall p :: p in plan.pairs ==> actor != p.oldPrincipal && actor != p.newPrincipal;
            var build, efficiency := CanaryShows(t, plan, "agt_build-in-public-agent", actor, auth), CanaryShows(t, plan, "agt_efficiency-agent", actor, auth);
            && (!may || (scope != Build && !build) || (scope == RemainingFleet && !efficiency) ==>
                  RunScope(t, plan, scope, actor, excluded, auth, fates, limit) == (t, Failed))
            && (may && (scope == Build || build) && (scope == RemainingFleet ==> efficiency) ==>
                  RunScope(t, plan, scope, actor, excluded, auth, fates, limit) == RunPairs(t, plan, scope, 0, actor, auth, fates, limit))
  {
    hide RunPairs, TerminalExact;
    assert forall k :: 0 <= k < |plan.pairs| ==> plan.pairs[k] in plan.pairs;
    CanaryFound(t, plan, "agt_build-in-public-agent", actor, auth);
    CanaryFound(t, plan, "agt_efficiency-agent", actor, auth);
  }

  /** The first pair of the plan with this new agent shows its exact end state to the actor. */
  ghost predicate CanaryShows(t: Tables, plan: Plan, agent: string, actor: Uuid, auth: Auth) {
    exists k :: && 0 <= k < |plan.pairs| && plan.pairs[k].newAgent == agent && (forall j :: 0 <= j < k ==> plan.pairs[j].newAgent != agent)
                && plan.pairs[k] in auth && TerminalExact(t, plan, plan.pairs[k], auth[plan.pairs[k]], actor)
  }

  lemma CanaryFound(t: Tables, plan: Plan, agent: string, actor: Uuid, auth: Auth)
    ensures Gate(t, plan, agent, actor, auth) <==> CanaryShows(t, plan, agent, actor, auth)
  {
    hide TerminalExact;
    FindFirst(plan.pairs, agent);
  }

  lemma {:induction false} FindFirst(pairs: seq<PairId>, agent: string)
    ensures match Find(pairs, agent)
            case None => forall k :: 0 <= k < |pairs| ==> pairs[k].newAgent != agent
            case Some(p) => exists k :: 0 <= k < |pairs| && pairs[k] == p && p.newAgent == agent && forall j :: 0 <= j < k ==> pairs[j].newAgent != agent
  {
    if pairs != [] && pairs[0].newAgent != agent {
      FindFirst(pairs[1..], agent);
      assert forall k :: 1 <= k < |pairs| ==> pairs[k] == pairs[1..][k - 1];
      if Find(pairs, agent).Some? {
        var k :| 0 <= k < |pairs[1..]| && pairs[1..][k] == Find(pairs, agent).value && forall j :: 0 <= j < k ==> pairs[1..][j].newAgent != agent;
        assert pairs[k + 1] == Find(pairs, agent).value;
      }
    }
  }
}
