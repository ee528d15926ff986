/** One pair of the cutover as a whole: when its transaction commits, what the commit leaves,
    how a lost commit is classified, and what other pairs see of it. */
module CutoverPairs {
  import opened Identifiers
  import opened Ledger
  import opened EventLog
  import opened Store
  import opened Cutover
  import Bindings
  import D = CutoverDomains
  import R = CutoverResponsibilities
  import V = CutoverRecovery

  // ---------------------------------------------------------------------------
  // The plan, pair by pair
  // ---------------------------------------------------------------------------

  lemma {:induction false} FilterDistinct(rs: seq<Responsibility>, pair: PairId)
    requires DistinctWorkflows(rs)
    ensures DistinctWorkflows(ResponsibilitiesOf(rs, pair))
  {
    if rs != [] {
      var r, rest, kept := rs[0], rs[1..], ResponsibilitiesOf(rs[1..], pair);
      FilterDistinct(rest, pair);
      forall x | x in kept ensures x.workflow != r.workflow {
        R.RestDiffers(rs, x);
      }
      assert forall k :: 0 < k < |[r] + kept| ==> ([r] + kept)[k] == kept[k - 1] && kept[k - 1] in kept;
    }
  }

  /** Tuples of different pairs name different instances. */
  lemma PairsApart(plan: Plan, p: PairId, q: PairId, r: Responsibility, x: Responsibility)
    requires DistinctWorkflows(plan.responsibilities) && MigrationOf(p) != MigrationOf(q)
    requires r in ResponsibilitiesOf(plan.responsibilities, p) && x in ResponsibilitiesOf(plan.responsibilities, q)
    ensures r.workflow != x.workflow
  {
    var rs := plan.responsibilities;
    var j, k :| 0 <= j < |rs| && 0 <= k < |rs| && rs[j] == r && rs[k] == x;
  }

  // ---------------------------------------------------------------------------
  // The stages of the transaction
  // ---------------------------------------------------------------------------

  /** The tables after the domain stage differ in principals and bindings only. */
  lemma DomainStage(t: Tables, plan: Plan, index: nat, pair: PairId, display: string)
    requires Sound(t) && AllExact(t) && DomainsAccepted(t.domains, t.bindings, index, DomainsOf(plan.domains, pair))
    ensures var w := WithDomains(t, plan, index, pair, display);
            && w == t.(principals := w.principals, bindings := w.bindings)
            && Sound(w) && AllExact(w) && HistoryKept(t, w)
  {
    hide Sound, AllExact, HistoryKept, DomainsAccepted;
    var w := WithDomains(t, plan, index, pair, display);
    SoundBindings(t);
    D.DomainsConserve(t.domains, t.bindings, index, DomainsOf(plan.domains, pair), Given(0), "");
    DomainColumns(t, plan, index, pair, display);
    RolesKeepLog(t, w);
  }

  lemma SoundBindings(t: Tables)
    requires Sound(t)
    ensures BindingsSound(t)
  {
  }

  lemma DomainColumns(t: Tables, plan: Plan, index: nat, pair: PairId, display: string)
    ensures var w := WithDomains(t, plan, index, pair, display);
            && w == t.(principals := w.principals, bindings := w.bindings)
            && w.principals == Projected(t.principals, pair, display)
            && w.bindings == DomainsMoved(t.bindings, index, DomainsOf(plan.domains, pair))
            && pair.newPrincipal in w.principals && forall p :: p in t.principals ==> p in w.principals
  {
    hide DomainsMoved;
  }

  lemma RolesKeepLog(t: Tables, w: Tables)
    requires Sound(t) && AllExact(t) && w == t.(principals := w.principals, bindings := w.bindings) && BindingsSound(w)
    ensures Sound(w) && AllExact(w) && HistoryKept(t, w)
  {
    hide BindingsSound, VisitsSound, InstancesSound, EventsSound, EventsUnique, AllExact;
    SameRowsSound(t, w);
    SameLogExact(t, w);
  }

  /** The two stages of an accepted pair. */
  lemma AcceptedStages(t: Tables, plan: Plan, index: nat, pair: PairId, display: string, actor: Uuid)
    requires PairAccepted(t, plan, index, pair, display, actor)
    ensures DomainsAccepted(t.domains, t.bindings, index, DomainsOf(plan.domains, pair))
    ensures TuplesAccepted(WithDomains(t, plan, index, pair, display), pair, index, ResponsibilitiesOf(plan.responsibilities, pair), actor)
  {
  }

  lemma SameInstances(t: Tables, w: Tables, pair: PairId, index: nat, r: Responsibility, actor: Uuid)
    requires w == t.(principals := w.principals, bindings := w.bindings)
    ensures R.TupleFits(w, pair, index, r, actor) <==> R.TupleFits(t, pair, index, r, actor)
    ensures ResponsibilityState(w, r) == ResponsibilityState(t, r)
  {
  }

  /** The responsibility stage: which tuples are accepted, and what it leaves. */
  lemma TupleStage(t: Tables, plan: Plan, index: nat, pair: PairId, display: string, actor: Uuid)
    requires Sound(t) && AllExact(t) && DistinctWorkflows(plan.responsibilities) && actor in t.principals
    requires DomainsAccepted(t.domains, t.bindings, index, DomainsOf(plan.domains, pair))
    ensures var rs := ResponsibilitiesOf(plan.responsibilities, pair);
            TuplesAccepted(WithDomains(t, plan, index, pair, display), pair, index, rs, actor)
            <==> forall r :: r in rs ==> R.TupleFits(t, pair, index, r, actor)
  {
    hide Sound, AllExact, DomainsAccepted, DomainsMoved, TuplesAccepted, R.TupleFits, HistoryKept;
    var w, rs := WithDomains(t, plan, index, pair, display), ResponsibilitiesOf(plan.responsibilities, pair);
    DomainStage(t, plan, index, pair, display);
    FilterDistinct(plan.responsibilities, pair);
    R.TuplesAcceptedExactly(w, pair, index, rs, actor);
    forall r | r in rs ensures R.TupleFits(w, pair, index, r, actor) <==> R.TupleFits(t, pair, index, r, actor) {
      SameInstances(t, w, pair, index, r, actor);
    }
  }

  /** The receipts of the responsibility stage are no summaries and take no summary key. */
  lemma ReceiptStage(t: Tables, plan: Plan, index: nat, pair: PairId, display: string, actor: Uuid)
    requires TuplesAccepted(WithDomains(t, plan, index, pair, display), pair, index, ResponsibilitiesOf(plan.responsibilities, pair), actor)
    ensures var u := WithResponsibilities(t, plan, index, pair, display, actor);
            && (forall c :: c in t.receipts ==> c in u.receipts && u.receipts[c] == t.receipts[c])
            && (forall c :: c in u.receipts && c !in t.receipts ==>
                  u.receipts[c].key.InstanceKey? && u.receipts[c].key.migration == MigrationOf(pair) && c.Derived? && c.tag.CommandOf?)
  {
    hide TuplesAccepted, TuplesWritten, DomainsMoved;
    var w, rs := WithDomains(t, plan, index, pair, display), ResponsibilitiesOf(plan.responsibilities, pair);
    var u := WithResponsibilities(t, plan, index, pair, display, actor);
    forall c | c in t.receipts ensures c in u.receipts && u.receipts[c] == t.receipts[c] {
      R.ReceiptsKept(w, pair, index, rs, actor, c);
    }
    forall c | c in u.receipts && c !in t.receipts
      ensures u.receipts[c].key.InstanceKey? && u.receipts[c].key.migration == MigrationOf(pair) && c.Derived? && c.tag.CommandOf?
    {
      R.AddedReceipts(w, pair, index, rs, actor, c);
    }
  }

  /** What the two stages leave: sound tables, exact logs, kept history, only the tables they
      write. */
  lemma Staged(t: Tables, plan: Plan, index: nat, pair: PairId, display: string, actor: Uuid)
    requires Sound(t) && AllExact(t) && DomainsAccepted(t.domains, t.bindings, index, DomainsOf(plan.domains, pair))
    requires TuplesAccepted(WithDomains(t, plan, index, pair, display), pair, index, ResponsibilitiesOf(plan.responsibilities, pair), actor)
    ensures var u := WithResponsibilities(t, plan, index, pair, display, actor);
            && Sound(u) && AllExact(u) && HistoryKept(t, u)
            && SameElsewhere(WithDomains(t, plan, index, pair, display), u) && u.instances.Keys == t.instances.Keys
  {
    hide Sound, AllExact, HistoryKept, DomainsAccepted, DomainsMoved, TuplesAccepted, TuplesWritten, MigratedCount;
    var w := WithDomains(t, plan, index, pair, display);
    DomainStage(t, plan, index, pair, display);
    R.TuplesFrame(w, pair, index, ResponsibilitiesOf(plan.responsibilities, pair), actor);
    HistoryKeptTransitive(t, w, WithResponsibilities(t, plan, index, pair, display, actor));
  }

  /** A committed pair keeps the schema, every exact log and the whole history. */
  lemma PairKeepsLog(t: Tables, plan: Plan, index: nat, pair: PairId, display: string, actor: Uuid)
    requires Sound(t) && AllExact(t) && PairAccepted(t, plan, index, pair, display, actor)
    ensures var u := PairWritten(t, plan, index, pair, display, actor);
            Sound(u) && AllExact(u) && HistoryKept(t, u) && u.instances.Keys == t.instances.Keys
  {
    hide Sound, AllExact, HistoryKept, DomainsAccepted, TuplesAccepted, WithResponsibilities, WithDomains,
         SummaryBody, Remaining;
    Staged(t, plan, index, pair, display, actor);
    var u := WithResponsibilities(t, plan, index, pair, display, actor);
    var receipt := SummaryReceipt(t, plan, index, pair, display, actor);
    var v := u.(receipts := u.receipts[SummaryCommandId(index) := receipt]);
    ReceiptKeepsLog(u, SummaryCommandId(index), receipt);
    ReceiptFrame(u, SummaryCommandId(index), receipt);
    AuditKeepsLog(v, SummaryAuditId(index), AuditOf(t, plan, index, pair, display, actor));
    HistoryKeptTransitive(u, v, PairWritten(t, plan, index, pair, display, actor));
    HistoryKeptTransitive(t, u, PairWritten(t, plan, index, pair, display, actor));
  }

  /** Conservation over every commit fate: the number of enabled bindings of every role in every
      domain, and so at most one owner per domain. */
  lemma PairConservesBindings(t: Tables, plan: Plan, index: nat, pair: PairId, display: string, actor: Uuid,
      ack: CommitAck, domain: Uuid, role: string)
    requires Sound(t) && AllExact(t)
    ensures var u := PairResult(t, plan, index, pair, display, actor, ack);
            && |Bindings.Holders(u.bindings, domain, role)| == |Bindings.Holders(t.bindings, domain, role)|
            && Bindings.SingleOwner(u.bindings)
  {
    hide AllExact, DomainsAccepted, DomainsMoved, TuplesAccepted, TuplesWritten, Bindings.Holders, HistoryKept,
         SummaryBody, Remaining;
    if PairAccepted(t, plan, index, pair, display, actor) {
      D.DomainsConserve(t.domains, t.bindings, index, DomainsOf(plan.domains, pair), domain, role);
      Staged(t, plan, index, pair, display, actor);
    }
  }

  // ---------------------------------------------------------------------------
  // When a pair commits
  // ---------------------------------------------------------------------------

  /** What must hold, beyond the exact preimage, for the transaction to reach its commit. */
  ghost predicate Committable(t: Tables, plan: Plan, index: nat, pair: PairId, actor: Uuid) {
    var ds, rs := DomainsOf(plan.domains, pair), ResponsibilitiesOf(plan.responsibilities, pair);
    && OldReady(t, pair)
    && D.KeysDistinct(ds) && D.AllRolesPlanned(t.bindings, ds, pair)
    && (forall d :: d in ds ==> D.BindingFree(t.bindings, index, d))
    && (forall r :: r in rs && Active(t, r) ==> r.visit !in t.openAssistance && R.IdsFree(t, pair, index, r, actor))
    && R.ReceiptIdsFree(t.receipts, SummaryCommandId(index), actor, SummaryKey(MigrationOf(pair)))
    && SummaryAuditId(index) !in t.audits
  }

  lemma PreFits(t: Tables, pair: PairId, index: nat, r: Responsibility, actor: Uuid)
    requires ResponsibilityState(t, r) in {Pre, Skip}
    ensures R.TupleFits(t, pair, index, r, actor) <==> (Active(t, r) ==> r.visit !in t.openAssistance && R.IdsFree(t, pair, index, r, actor))
  {
  }

  lemma FitsPre(t: Tables, pair: PairId, index: nat, r: Responsibility, actor: Uuid)
    requires Sound(t) && R.TupleFits(t, pair, index, r, actor)
    ensures ResponsibilityState(t, r) in {Pre, Skip}
  {
  }

  /** The tail of the transaction: summary receipt, audit, and the remaining-roles check. */
  lemma TailExactly(t: Tables, plan: Plan, index: nat, pair: PairId, display: string, actor: Uuid)
    requires Sound(t) && AllExact(t) && actor in t.principals && DomainsAccepted(t.domains, t.bindings, index, DomainsOf(plan.domains, pair))
    requires TuplesAccepted(WithDomains(t, plan, index, pair, display), pair, index, ResponsibilitiesOf(plan.responsibilities, pair), actor)
    ensures var u := WithResponsibilities(t, plan, index, pair, display, actor);
            && (ReceiptInsertable(u, SummaryCommandId(index), actor, SummaryKey(MigrationOf(pair)))
                <==> R.ReceiptIdsFree(t.receipts, SummaryCommandId(index), actor, SummaryKey(MigrationOf(pair))))
            && u.audits == t.audits
            && (|Remaining(u.bindings, DomainsOf(plan.domains, pair), pair)| == 0 <==> D.AllRolesPlanned(t.bindings, DomainsOf(plan.domains, pair), pair))
  {
    hide Sound, AllExact, HistoryKept, DomainsAccepted, DomainsMoved, TuplesAccepted, TuplesWritten, MigratedCount,
         Remaining, D.AllRolesPlanned, R.ReceiptIdsFree, ReceiptInsertable;
    Staged(t, plan, index, pair, display, actor);
    TailReceipt(t, plan, index, pair, display, actor);
    D.NoneRemaining(t.domains, t.bindings, index, pair, DomainsOf(plan.domains, pair));
  }

  lemma TailReceipt(t: Tables, plan: Plan, index: nat, pair: PairId, display: string, actor: Uuid)
    requires actor in t.principals
    requires TuplesAccepted(WithDomains(t, plan, index, pair, display), pair, index, ResponsibilitiesOf(plan.responsibilities, pair), actor)
    requires SameElsewhere(WithDomains(t, plan, index, pair, display), WithResponsibilities(t, plan, index, pair, display, actor))
    ensures ReceiptInsertable(WithResponsibilities(t, plan, index, pair, display, actor), SummaryCommandId(index), actor, SummaryKey(MigrationOf(pair)))
       <==> R.ReceiptIdsFree(t.receipts, SummaryCommandId(index), actor, SummaryKey(MigrationOf(pair)))
  {
    hide DomainsMoved, TuplesAccepted, TuplesWritten, MigratedCount;
    ReceiptStage(t, plan, index, pair, display, actor);
    var u := WithResponsibilities(t, plan, index, pair, display, actor);
    assert u.principals == WithDomains(t, plan, index, pair, display).principals;
  }

  /** From the exact preimage the transaction commits if and only if the pair is committable:
      no CAS, no unique index and no re-observation can fail otherwise. */
  lemma CommitsExactly(t: Tables, plan: Plan, index: nat, pair: PairId, display: string, actor: Uuid)
    requires PlanValid(plan) && Sound(t) && AllExact(t) && actor in t.principals
    requires PreExact(t, plan, pair, display, actor)
    ensures PairAccepted(t, plan, index, pair, display, actor) <==> Committable(t, plan, index, pair, actor)
  {
    hide Sound, AllExact, HistoryKept, DomainsMoved, TuplesAccepted, DomainsAccepted, Remaining,
         WithResponsibilities, WithDomains, R.IdsFree, R.ReceiptIdsFree, Active, R.TupleFits, ResponsibilityState,
         DomainState, D.AllRolesPlanned, D.BindingFree, ReceiptInsertable;
    var ds, rs := DomainsOf(plan.domains, pair), ResponsibilitiesOf(plan.responsibilities, pair);
    SoundOwners(t);
    D.DomainsAcceptedExactly(t.domains, t.bindings, index, pair, ds);
    assert CompletedSummaries(t, actor, MigrationOf(pair)) <= Summaries(t, actor, MigrationOf(pair));
    assert |CompletedSummaries(t, actor, MigrationOf(pair))| == 0;
    forall r | r in rs
      ensures R.TupleFits(t, pair, index, r, actor) <==> (Active(t, r) ==> r.visit !in t.openAssistance && R.IdsFree(t, pair, index, r, actor))
    {
      PreFits(t, pair, index, r, actor);
    }
    if DomainsAccepted(t.domains, t.bindings, index, ds) {
      TupleStage(t, plan, index, pair, display, actor);
      if TuplesAccepted(WithDomains(t, plan, index, pair, display), pair, index, rs, actor) {
        TailExactly(t, plan, index, pair, display, actor);
      }
    }
  }

  lemma SoundOwners(t: Tables)
    requires Sound(t)
    ensures Bindings.SingleOwner(t.bindings)
  {
  }

  // ---------------------------------------------------------------------------
  // What a commit leaves
  // ---------------------------------------------------------------------------

  /** An audit by this actor for this migration exists already, though no summary does. */
  predicate EarlierAudit(t: Tables, pair: PairId, actor: Uuid) {
    |SummaryAudits(t, actor, MigrationOf(pair))| != 0
  }

  lemma SummariesStaged(t: Tables, plan: Plan, index: nat, pair: PairId, display: string, actor: Uuid, a: Uuid,
      m: MigrationId)
    requires TuplesAccepted(WithDomains(t, plan, index, pair, display), pair, index, ResponsibilitiesOf(plan.responsibilities, pair), actor)
    ensures CompletedSummaries(WithResponsibilities(t, plan, index, pair, display, actor), a, m) == CompletedSummaries(t, a, m)
  {
    hide WithResponsibilities, TuplesAccepted;
    ReceiptStage(t, plan, index, pair, display, actor);
  }

  lemma SummaryAdded(t: Tables, c: Uuid, r: Receipt, a: Uuid, m: MigrationId)
    requires c !in t.receipts && r.response.Some? && r.commandType == COMMAND_TYPE && r.key.SummaryKey?
    ensures CompletedSummaries(t.(receipts := t.receipts[c := r]), a, m)
         == CompletedSummaries(t, a, m) + (if a == r.principal && m == r.key.migration then {c} else {})
  {
  }

  lemma AuditAdded(t: Tables, id: Uuid, audit: Audit, a: Uuid, m: MigrationId)
    requires id !in t.audits && audit.action == AUDIT_ACTION && audit.resource.CutoverOf?
    ensures SummaryAudits(t.(audits := t.audits[id := audit]), a, m)
         == SummaryAudits(t, a, m) + (if a == audit.principal && m == audit.resource.migration then {id} else {})
    ensures id !in SummaryAudits(t, a, m)
  {
  }

  lemma CompletedAfter(t: Tables, plan: Plan, index: nat, pair: PairId, display: string, actor: Uuid, a: Uuid,
      m: MigrationId)
    requires PairAccepted(t, plan, index, pair, display, actor)
    ensures CompletedSummaries(PairWritten(t, plan, index, pair, display, actor), a, m)
         == CompletedSummaries(t, a, m) + (if a == actor && m == MigrationOf(pair) then {SummaryCommandId(index)} else {})
  {
    hide DomainsAccepted, TuplesAccepted, WithResponsibilities, WithDomains, Remaining, SummaryBody, OldReady,
         ProjectionExact, CompletedSummaries;
    SummariesStaged(t, plan, index, pair, display, actor, a, m);
    var u := WithResponsibilities(t, plan, index, pair, display, actor);
    var r := SummaryReceipt(t, plan, index, pair, display, actor);
    SummaryAdded(u, SummaryCommandId(index), r, a, m);
    SameReceipts(PairWritten(t, plan, index, pair, display, actor), u.(receipts := u.receipts[SummaryCommandId(index) := r]), a, m);
  }

  /** The summary receipts and audits of every migration after a commit. */
  lemma SummariesAfter(t: Tables, plan: Plan, index: nat, pair: PairId, display: string, actor: Uuid, a: Uuid,
      m: MigrationId)
    requires Sound(t) && AllExact(t) && PairAccepted(t, plan, index, pair, display, actor)
    ensures var u := PairWritten(t, plan, index, pair, display, actor);
            && CompletedSummaries(u, a, m)
               == CompletedSummaries(t, a, m) + (if a == actor && m == MigrationOf(pair) then {SummaryCommandId(index)} else {})
            && SummaryAudits(u, a, m) == SummaryAudits(t, a, m) + (if a == actor && m == MigrationOf(pair) then {SummaryAuditId(index)} else {})
            && SummaryAuditId(index) !in SummaryAudits(t, a, m)
  {
    hide Sound, AllExact, HistoryKept, DomainsAccepted, TuplesAccepted, WithResponsibilities, WithDomains, Remaining,
         SummaryBody, OldReady, ProjectionExact, CompletedSummaries, SummaryAudits;
    Staged(t, plan, index, pair, display, actor);
    StagedAudits(t, plan, index, pair, display, actor);
    CompletedAfter(t, plan, index, pair, display, actor, a, m);
    var u := WithResponsibilities(t, plan, index, pair, display, actor);
    var x := AuditOf(t, plan, index, pair, display, actor);
    AuditAdded(u, SummaryAuditId(index), x, a, m);
    SameAudits(t, u, a, m);
    SameAudits(PairWritten(t, plan, index, pair, display, actor), u.(audits := u.audits[SummaryAuditId(index) := x]), a, m);
  }

  lemma SameAudits(t: Tables, u: Tables, a: Uuid, m: MigrationId)
    requires t.audits == u.audits
    ensures SummaryAudits(t, a, m) == SummaryAudits(u, a, m)
  {
  }

  lemma SameReceipts(t: Tables, u: Tables, a: Uuid, m: MigrationId)
    requires t.receipts == u.receipts
    ensures CompletedSummaries(t, a, m) == CompletedSummaries(u, a, m)
  {
  }

  /** The columns of a committed pair's tables that the responsibility stage does not touch. */
  lemma StagedAudits(t: Tables, plan: Plan, index: nat, pair: PairId, display: string, actor: Uuid)
    requires SameElsewhere(WithDomains(t, plan, index, pair, display), WithResponsibilities(t, plan, index, pair, display, actor))
    ensures var u := WithResponsibilities(t, plan, index, pair, display, actor);
            && u.audits == t.audits && u.domains == t.domains && u.principals == Projected(t.principals, pair, display)
            && u.bindings == DomainsMoved(t.bindings, index, DomainsOf(plan.domains, pair)) && u.nodes == t.nodes && u.contexts == t.contexts
  {
    hide WithResponsibilities, WithDomains, DomainsMoved, SameElsewhere, Projected;
    SameColumns(WithDomains(t, plan, index, pair, display), WithResponsibilities(t, plan, index, pair, display, actor));
    DomainColumns(t, plan, index, pair, display);
  }

  lemma TuplesAllReady(t: Tables, plan: Plan, index: nat, pair: PairId, display: string, actor: Uuid, r: Responsibility)
    requires DistinctWorkflows(plan.responsibilities) && Sound(t) && AllExact(t) && PairAccepted(t, plan, index, pair, display, actor)
    requires r in ResponsibilitiesOf(plan.responsibilities, pair)
    ensures ResponsibilityState(PairWritten(t, plan, index, pair, display, actor), r) in {Ready, Skip}
  {
    hide Sound, AllExact, DomainsAccepted, DomainsMoved, TuplesAccepted, TuplesWritten, Remaining, HistoryKept,
         SummaryBody, ResponsibilityState;
    var w := WithDomains(t, plan, index, pair, display);
    DomainStage(t, plan, index, pair, display);
    FilterDistinct(plan.responsibilities, pair);
    R.TuplesReady(w, pair, index, ResponsibilitiesOf(plan.responsibilities, pair), actor, r);
    SameState(WithResponsibilities(t, plan, index, pair, display, actor), PairWritten(t, plan, index, pair, display, actor), r);
  }

  lemma SameState(t: Tables, u: Tables, r: Responsibility)
    requires u == t.(receipts := u.receipts, audits := u.audits)
    ensures ResponsibilityState(u, r) == ResponsibilityState(t, r)
  {
  }

  /** A commit produces the exact end state; only an audit that was there before can make the
      re-read disagree. */
  lemma CommitIsTerminal(t: Tables, plan: Plan, index: nat, pair: PairId, display: string, actor: Uuid)
    requires PlanValid(plan) && Sound(t) && AllExact(t) && PairAccepted(t, plan, index, pair, display, actor)
    ensures TerminalExact(PairWritten(t, plan, index, pair, display, actor), plan, pair, display, actor) <==> !EarlierAudit(t, pair, actor)
  {
    hide Sound, AllExact, HistoryKept, DomainsAccepted, DomainsMoved, TuplesAccepted, Remaining, SummaryBody,
         ResponsibilityState, DomainState, CompletedSummaries, SummaryAudits, WithResponsibilities, WithDomains,
         SameElsewhere, ReceiptInsertable;
    var u := PairWritten(t, plan, index, pair, display, actor);
    SoundOwners(t);
    Staged(t, plan, index, pair, display, actor);
    StagedAudits(t, plan, index, pair, display, actor);
    forall d | d in DomainsOf(plan.domains, pair) ensures DomainState(u.domains, u.bindings, d) == Ready {
      D.DomainsMovedReady(t.domains, t.bindings, index, pair, DomainsOf(plan.domains, pair), d);
    }
    forall r | r in ResponsibilitiesOf(plan.responsibilities, pair) ensures ResponsibilityState(u, r) in {Ready, Skip} {
      TuplesAllReady(t, plan, index, pair, display, actor, r);
    }
    SummariesAfter(t, plan, index, pair, display, actor, actor, MigrationOf(pair));
  }

  /** A transaction that reaches its commit started from the exact preimage, with the same
      exception. */
  lemma CommitHadPreimage(t: Tables, plan: Plan, index: nat, pair: PairId, display: string, actor: Uuid)
    requires PlanValid(plan) && Sound(t) && AllExact(t) && PairAccepted(t, plan, index, pair, display, actor)
    ensures PreExact(t, plan, pair, display, actor) <==> !EarlierAudit(t, pair, actor)
  {
    hide Sound, AllExact, HistoryKept, DomainsAccepted, DomainsMoved, TuplesAccepted, Remaining, SummaryBody,
         ResponsibilityState, DomainState, SummaryAudits, TuplesWritten;
    var ds, rs := DomainsOf(plan.domains, pair), ResponsibilitiesOf(plan.responsibilities, pair);
    SoundOwners(t);
    D.DomainsAcceptedExactly(t.domains, t.bindings, index, pair, ds);
    forall d | d in ds ensures DomainState(t.domains, t.bindings, d) == Pre {
      assert D.TupleFits(t.domains, t.bindings, index, d);
    }
    ActorKnown(t, plan, index, pair, display, actor);
    forall r | r in rs ensures ResponsibilityState(t, r) in {Pre, Skip} {
      TupleWasPre(t, plan, index, pair, display, actor, r);
    }
    ReceiptStage(t, plan, index, pair, display, actor);
    assert Summaries(t, actor, MigrationOf(pair)) == {};
  }

  lemma ActorKnown(t: Tables, plan: Plan, index: nat, pair: PairId, display: string, actor: Uuid)
    requires Sound(t) && AllExact(t) && PairAccepted(t, plan, index, pair, display, actor)
    ensures actor in t.principals || actor == pair.newPrincipal
  {
    hide Sound, AllExact, DomainsAccepted, DomainsMoved, TuplesAccepted, TuplesWritten, Remaining, HistoryKept;
    Staged(t, plan, index, pair, display, actor);
  }

  lemma TupleWasPre(t: Tables, plan: Plan, index: nat, pair: PairId, display: string, actor: Uuid, r: Responsibility)
    requires DistinctWorkflows(plan.responsibilities) && Sound(t) && AllExact(t) && PairAccepted(t, plan, index, pair, display, actor)
    requires r in ResponsibilitiesOf(plan.responsibilities, pair)
    ensures ResponsibilityState(t, r) in {Pre, Skip}
  {
    hide Sound, AllExact, DomainsAccepted, DomainsMoved, TuplesAccepted, PairAccepted, HistoryKept,
         ResponsibilityState, R.TupleFits, WithDomains, DistinctWorkflows;
    DomainColumns(t, plan, index, pair, display);
    AcceptedStages(t, plan, index, pair, display, actor);
    var w, rs := WithDomains(t, plan, index, pair, display), ResponsibilitiesOf(plan.responsibilities, pair);
    ActorKnown(t, plan, index, pair, display, actor);
    DomainStage(t, plan, index, pair, display);
    FilterDistinct(plan.responsibilities, pair);
    R.TuplesAcceptedExactly(w, pair, index, rs, actor);
    FitsPre(w, pair, index, r, actor);
    SameInstances(t, w, pair, index, r, actor);
  }

  /** The exact preimage and the exact end state exclude each other. */
  lemma PreIsNotTerminal(t: Tables, plan: Plan, pair: PairId, display: string, actor: Uuid)
    ensures !(PreExact(t, plan, pair, display, actor) && TerminalExact(t, plan, pair, display, actor))
  {
    assert CompletedSummaries(t, actor, MigrationOf(pair)) <= Summaries(t, actor, MigrationOf(pair));
    if PreExact(t, plan, pair, display, actor) {
      assert Summaries(t, actor, MigrationOf(pair)) == {};
      assert CompletedSummaries(t, actor, MigrationOf(pair)) == {};
    }
  }

  // ---------------------------------------------------------------------------
  // What the operator reports
  // ---------------------------------------------------------------------------

  /** For every commit fate and every failing re-read: COMMITTED and NOOP are reported of a
      durable exact end state only, ROLLED_BACK of a durable exact preimage only, and a durable
      change goes unreported only if the re-read failed or an earlier audit spoils it. */
  lemma ReportIsSound(t: Tables, plan: Plan, index: nat, pair: PairId, display: string, actor: Uuid, ack: CommitAck,
      rereads: Rereads)
    requires PlanValid(plan) && Sound(t) && AllExact(t)
    ensures var u := PairResult(t, plan, index, pair, display, actor, ack);
            var o := PairReport(t, plan, index, pair, display, actor, ack, rereads);
            && (o.Committed? ==> PairAccepted(t, plan, index, pair, display, actor) && TerminalExact(u, plan, pair, display, actor))
            && (o.Committed? ==> u == PairWritten(t, plan, index, pair, display, actor))
            && (o.NoOp? ==> u == t && TerminalExact(t, plan, pair, display, actor))
            && (o.RolledBack? ==> u == t && PreExact(t, plan, pair, display, actor))
            && (u != t ==> o.Committed? || !rereads.terminal || EarlierAudit(t, pair, actor))
  {
    hide TerminalExact, PreExact, PairWritten, Sound, AllExact, EarlierAudit, PairAccepted;
    if PairAccepted(t, plan, index, pair, display, actor) {
      CommitIsTerminal(t, plan, index, pair, display, actor);
      CommitHadPreimage(t, plan, index, pair, display, actor);
      AcceptedNotTerminal(t, plan, index, pair, display, actor);
      WrittenNotPre(t, plan, index, pair, display, actor);
    }
  }

  lemma AcceptedNotTerminal(t: Tables, plan: Plan, index: nat, pair: PairId, display: string, actor: Uuid)
    requires PairAccepted(t, plan, index, pair, display, actor)
    ensures !TerminalExact(t, plan, pair, display, actor)
  {
  }

  lemma WrittenNotPre(t: Tables, plan: Plan, index: nat, pair: PairId, display: string, actor: Uuid)
    requires Sound(t) && AllExact(t) && PairAccepted(t, plan, index, pair, display, actor)
    ensures !PreExact(PairWritten(t, plan, index, pair, display, actor), plan, pair, display, actor)
  {
    hide PairWritten, PairAccepted, Sound, AllExact, SummaryAudits, DomainState, ResponsibilityState;
    var u := PairWritten(t, plan, index, pair, display, actor);
    SummariesAfter(t, plan, index, pair, display, actor, actor, MigrationOf(pair));
    assert SummaryCommandId(index) in CompletedSummaries(u, actor, MigrationOf(pair));
    assert SummaryCommandId(index) in Summaries(u, actor, MigrationOf(pair));
  }

  /** With both re-reads available the report tells the two commit fates apart exactly, unless
      an earlier audit spoils both exact states: then even an acknowledged commit is a conflict. */
  lemma ReportDecides(t: Tables, plan: Plan, index: nat, pair: PairId, display: string, actor: Uuid, ack: CommitAck)
    requires PlanValid(plan) && Sound(t) && AllExact(t) && PairAccepted(t, plan, index, pair, display, actor)
    ensures PairReport(t, plan, index, pair, display, actor, ack, Rereads(true, true))
         == if EarlierAudit(t, pair, actor) then Conflict else if ack.LostNotApplied? then RolledBack else Committed
  {
    hide TerminalExact, PreExact, PairWritten, Sound, AllExact, EarlierAudit, PairAccepted;
    CommitIsTerminal(t, plan, index, pair, display, actor);
    CommitHadPreimage(t, plan, index, pair, display, actor);
    AcceptedNotTerminal(t, plan, index, pair, display, actor);
    WrittenNotPre(t, plan, index, pair, display, actor);
  }

  lemma StateIgnoresAudits(t: Tables, audits: map<Uuid, Audit>, pair: PairId, index: nat, r: Responsibility)
    ensures var x := t.(audits := audits);
            Passed(x, r) == Passed(t, r) && Active(x, r) == Active(t, r) && NewVisit(x, pair, r) == NewVisit(t, pair, r)
  {
    assert Numbers(t.(audits := audits), r.workflow, r.node) == Numbers(t, r.workflow, r.node);
  }

  lemma MigrationIgnoresAudits(t: Tables, audits: map<Uuid, Audit>, pair: PairId, index: nat, r: Responsibility,
      actor: Uuid)
    ensures MigrationAccepted(t.(audits := audits), pair, index, r, actor) <==> MigrationAccepted(t, pair, index, r, actor)
  {
    hide VisitInsertable, ReceiptInsertable, Active, NewVisit;
    StateIgnoresAudits(t, audits, pair, index, r);
    SameVisits(t, audits, VisitId(index, r), NewVisit(t, pair, r));
    SameKeys(t, audits, CommandId(index, r), actor, KeyOf(pair, r));
  }

  lemma TupleIgnoresAudits(t: Tables, audits: map<Uuid, Audit>, pair: PairId, index: nat, r: Responsibility,
      actor: Uuid)
    ensures var x := t.(audits := audits);
            && (TupleAccepted(x, pair, index, r, actor) <==> TupleAccepted(t, pair, index, r, actor))
            && TupleWritten(x, pair, index, r, actor) == TupleWritten(t, pair, index, r, actor).(audits := audits)
  {
    hide MigrationAccepted, Passed, NewVisit;
    StateIgnoresAudits(t, audits, pair, index, r);
    MigrationIgnoresAudits(t, audits, pair, index, r, actor);
  }

  lemma SameVisits(t: Tables, audits: map<Uuid, Audit>, id: Uuid, v: Visit)
    ensures VisitInsertable(t.(audits := audits), id, v) == VisitInsertable(t, id, v)
  {
  }

  lemma SameKeys(t: Tables, audits: map<Uuid, Audit>, command: Uuid, actor: Uuid, key: ReceiptKey)
    ensures ReceiptInsertable(t.(audits := audits), command, actor, key) == ReceiptInsertable(t, command, actor, key)
  {
  }

  lemma {:induction false} TuplesIgnoreAudits(t: Tables, audits: map<Uuid, Audit>, pair: PairId, index: nat,
      rs: seq<Responsibility>, actor: Uuid)
    ensures var x := t.(audits := audits);
            && (TuplesAccepted(x, pair, index, rs, actor) <==> TuplesAccepted(t, pair, index, rs, actor))
            && TuplesWritten(x, pair, index, rs, actor) == TuplesWritten(t, pair, index, rs, actor).(audits := audits)
    decreases |rs|
  {
    hide TupleAccepted, TupleWritten;
    if rs != [] {
      TupleIgnoresAudits(t, audits, pair, index, rs[0], actor);
      TuplesIgnoreAudits(TupleWritten(t, pair, index, rs[0], actor), audits, pair, index, rs[1..], actor);
    }
  }

  /** Nothing before the insert of the summary audit looks at the audits. */
  lemma PairIgnoresAudits(t: Tables, audits: map<Uuid, Audit>, plan: Plan, index: nat, pair: PairId, display: string,
      actor: Uuid)
    requires PairAccepted(t, plan, index, pair, display, actor) && SummaryAuditId(index) !in audits
    ensures PairAccepted(t.(audits := audits), plan, index, pair, display, actor)
  {
    hide TuplesAccepted, TuplesWritten, DomainsAccepted, DomainsMoved, Remaining, ReceiptInsertable, Projected;
    var x, w := t.(audits := audits), WithDomains(t, plan, index, pair, display);
    var u := WithResponsibilities(t, plan, index, pair, display, actor);
    assert WithDomains(x, plan, index, pair, display) == w.(audits := audits);
    TuplesIgnoreAudits(w, audits, pair, index, ResponsibilitiesOf(plan.responsibilities, pair), actor);
    SameReceipts(t, x, actor, MigrationOf(pair));
    SameKeys(u, audits, SummaryCommandId(index), actor, SummaryKey(MigrationOf(pair)));
  }

  /** The conflict is real where something else wrote an audit: then the pair is committed, both
      re-reads work, and the report is a conflict all the same. */
  lemma EarlierAuditSpoils(t: Tables, plan: Plan, index: nat, pair: PairId, display: string, actor: Uuid, id: Uuid,
      body: Document)
    requires PlanValid(plan) && Sound(t) && AllExact(t) && PairAccepted(t, plan, index, pair, display, actor)
    requires id !in t.audits && id != SummaryAuditId(index)
    ensures var x := t.(audits := t.audits[id := Audit(actor, AUDIT_ACTION, CutoverOf(MigrationOf(pair)), body)]);
            && Sound(x) && AllExact(x) && PairAccepted(x, plan, index, pair, display, actor)
            && PairResult(x, plan, index, pair, display, actor, Acked) == PairWritten(x, plan, index, pair, display, actor) != x
            && PairReport(x, plan, index, pair, display, actor, Acked, Rereads(true, true)) == Conflict
  {
    hide Sound, AllExact, PairAccepted, HistoryKept, PairReport, CompletedSummaries;
    var audit := Audit(actor, AUDIT_ACTION, CutoverOf(MigrationOf(pair)), body);
    var x := t.(audits := t.audits[id := audit]);
    AuditKeepsLog(t, id, audit);
    AuditUnused(t, plan, index, pair, display, actor);
    PairIgnoresAudits(t, x.audits, plan, index, pair, display, actor);
    assert id in SummaryAudits(x, actor, MigrationOf(pair));
    ReportDecides(x, plan, index, pair, display, actor, Acked);
    AuditUnused(x, plan, index, pair, display, actor);
    assert SummaryAuditId(index) in PairWritten(x, plan, index, pair, display, actor).audits;
  }

  lemma AuditUnused(t: Tables, plan: Plan, index: nat, pair: PairId, display: string, actor: Uuid)
    requires Sound(t) && AllExact(t) && PairAccepted(t, plan, index, pair, display, actor)
    ensures SummaryAuditId(index) !in t.audits
  {
    hide Sound, AllExact, HistoryKept, DomainsAccepted, TuplesAccepted, WithResponsibilities, WithDomains, Remaining;
    Staged(t, plan, index, pair, display, actor);
    StagedAudits(t, plan, index, pair, display, actor);
  }

  /** A committed pair is never written again. */
  lemma RerunWritesNothing(t: Tables, plan: Plan, index: nat, pair: PairId, display: string, actor: Uuid,
      ack: CommitAck, rereads: Rereads)
    requires PlanValid(plan) && Sound(t) && AllExact(t) && PairAccepted(t, plan, index, pair, display, actor)
    ensures var u := PairWritten(t, plan, index, pair, display, actor);
            && PairResult(u, plan, index, pair, display, actor, ack) == u
            && PairReport(u, plan, index, pair, display, actor, ack, rereads)
               == if rereads.terminal && !EarlierAudit(t, pair, actor) then NoOp else Conflict
  {
    hide TerminalExact, PreExact, PairWritten, Sound, AllExact, EarlierAudit;
    SummariesAfter(t, plan, index, pair, display, actor, actor, MigrationOf(pair));
    CommitIsTerminal(t, plan, index, pair, display, actor);
  }

  // ---------------------------------------------------------------------------
  // What other pairs and instances see
  // ---------------------------------------------------------------------------

  ghost predicate Disjoint(p: PairId, q: PairId) {
    {p.oldPrincipal, p.newPrincipal} !! {q.oldPrincipal, q.newPrincipal}
  }

  lemma OtherDomainKept(t: Tables, plan: Plan, index: nat, p: PairId, q: PairId, display: string, actor: Uuid,
      d: DomainTuple)
    requires Sound(t) && AllExact(t) && PairAccepted(t, plan, index, p, display, actor) && Disjoint(p, q) && d in DomainsOf(plan.domains, q)
    ensures var u := PairWritten(t, plan, index, p, display, actor);
            DomainState(u.domains, u.bindings, d) == DomainState(t.domains, t.bindings, d)
  {
    hide Sound, AllExact, HistoryKept, DomainsAccepted, DomainsMoved, TuplesAccepted, WithResponsibilities,
         WithDomains, SameElsewhere, SummaryBody, Remaining, DomainState;
    Staged(t, plan, index, p, display, actor);
    StagedAudits(t, plan, index, p, display, actor);
    D.OtherTupleUnmoved(t.domains, t.bindings, index, p, DomainsOf(plan.domains, p), d);
  }

  lemma OutsideUntouched(t: Tables, plan: Plan, index: nat, p: PairId, display: string, actor: Uuid, w: Uuid)
    requires Sound(t) && AllExact(t) && PairAccepted(t, plan, index, p, display, actor)
    requires forall r :: r in ResponsibilitiesOf(plan.responsibilities, p) ==> r.workflow != w
    ensures var u := PairWritten(t, plan, index, p, display, actor); Untouched(t, u, w) && t.contexts == u.contexts && t.nodes == u.nodes
  {
    hide Sound, AllExact, HistoryKept, DomainsAccepted, TuplesAccepted, TuplesWritten, DomainsMoved, SameElsewhere,
         SummaryBody, Remaining, Untouched, Projected;
    var v := WithDomains(t, plan, index, p, display);
    var x := WithResponsibilities(t, plan, index, p, display, actor);
    Staged(t, plan, index, p, display, actor);
    StagedAudits(t, plan, index, p, display, actor);
    R.OthersUntouched(v, p, index, ResponsibilitiesOf(plan.responsibilities, p), actor, w);
    SameRowsUntouched(t, v, w);
    SameRowsUntouched(x, PairWritten(t, plan, index, p, display, actor), w);
    UntouchedTransitive(t, v, x, w);
    UntouchedTransitive(t, x, PairWritten(t, plan, index, p, display, actor), w);
  }

  lemma SameRowsUntouched(t: Tables, u: Tables, w: Uuid)
    requires t.instances == u.instances && t.visits == u.visits && t.events == u.events
    ensures Untouched(t, u, w)
  {
  }

  lemma OtherResponsibilityKept(t: Tables, plan: Plan, index: nat, p: PairId, q: PairId, display: string, actor: Uuid,
      x: Responsibility)
    requires PlanValid(plan) && Sound(t) && AllExact(t) && PairAccepted(t, plan, index, p, display, actor)
    requires MigrationOf(p) != MigrationOf(q) && x in ResponsibilitiesOf(plan.responsibilities, q)
    ensures ResponsibilityState(PairWritten(t, plan, index, p, display, actor), x) == ResponsibilityState(t, x)
  {
    hide Sound, AllExact, PairAccepted, PairWritten, ResponsibilityState, HistoryKept, Untouched;
    forall r | r in ResponsibilitiesOf(plan.responsibilities, p) ensures r.workflow != x.workflow {
      PairsApart(plan, p, q, r, x);
    }
    OutsideUntouched(t, plan, index, p, display, actor, x.workflow);
    PairKeepsLog(t, plan, index, p, display, actor);
    R.SoundInstances(t);
    R.SoundInstances(PairWritten(t, plan, index, p, display, actor));
    R.UntouchedState(t, PairWritten(t, plan, index, p, display, actor), x);
  }

  lemma PrincipalsKept(t: Tables, plan: Plan, index: nat, p: PairId, display: string, actor: Uuid)
    requires Sound(t) && AllExact(t) && PairAccepted(t, plan, index, p, display, actor)
    ensures forall x :: x in t.principals ==> x in PairWritten(t, plan, index, p, display, actor).principals
                                              && PairWritten(t, plan, index, p, display, actor).principals[x] == t.principals[x]
  {
    hide Sound, AllExact, HistoryKept, DomainsAccepted, TuplesAccepted, WithResponsibilities, WithDomains,
         SameElsewhere, SummaryBody, Remaining;
    Staged(t, plan, index, p, display, actor);
    StagedAudits(t, plan, index, p, display, actor);
  }

  /** A finished pair stays finished, for whatever operator, when another pair commits. */
  lemma OtherPairKept(t: Tables, plan: Plan, index: nat, p: PairId, q: PairId, display: string, actor: Uuid,
      shown: string, operator: Uuid)
    requires PlanValid(plan) && Sound(t) && AllExact(t) && PairAccepted(t, plan, index, p, display, actor) && Disjoint(p, q)
    requires TerminalExact(t, plan, q, shown, operator)
    ensures TerminalExact(PairWritten(t, plan, index, p, display, actor), plan, q, shown, operator)
  {
    hide Sound, AllExact, PairAccepted, PairWritten, ResponsibilityState, DomainState, CompletedSummaries,
         SummaryAudits;
    var u := PairWritten(t, plan, index, p, display, actor);
    forall d | d in DomainsOf(plan.domains, q) ensures DomainState(u.domains, u.bindings, d) == Ready {
      OtherDomainKept(t, plan, index, p, q, display, actor, d);
    }
    forall r | r in ResponsibilitiesOf(plan.responsibilities, q) ensures ResponsibilityState(u, r) in {Ready, Skip} {
      OtherResponsibilityKept(t, plan, index, p, q, display, actor, r);
    }
    PrincipalsKept(t, plan, index, p, display, actor);
    SummariesAfter(t, plan, index, p, display, actor, operator, MigrationOf(q));
  }

  /** Recovery: a committed pair leaves every instance rebuildable that was so before. */
  lemma PairRebuildable(t: Tables, plan: Plan, index: nat, pair: PairId, display: string, actor: Uuid,
      manifest: seq<PairId>, w: Uuid)
    requires Sound(t) && AllExact(t) && PairAccepted(t, plan, index, pair, display, actor) && V.Allowed(manifest, pair, index, actor)
    requires w in t.instances && Rebuildable(t, manifest, w)
    ensures var u := PairWritten(t, plan, index, pair, display, actor); w in u.instances && Rebuildable(u, manifest, w)
  {
    hide Sound, AllExact, HistoryKept, DomainsAccepted, DomainsMoved, TuplesAccepted, TuplesWritten, SummaryBody,
         Remaining, Rebuildable, Untouched, Projected, SameElsewhere;
    var v, x := WithDomains(t, plan, index, pair, display), WithResponsibilities(t, plan, index, pair, display, actor);
    Staged(t, plan, index, pair, display, actor);
    StagedAudits(t, plan, index, pair, display, actor);
    DomainStage(t, plan, index, pair, display);
    SameRowsUntouched(t, v, w);
    UntouchedRebuildable(t, v, manifest, w);
    V.TuplesRebuildable(v, manifest, pair, index, ResponsibilitiesOf(plan.responsibilities, pair), actor, w);
    SameRowsUntouched(x, PairWritten(t, plan, index, pair, display, actor), w);
    UntouchedRebuildable(x, PairWritten(t, plan, index, pair, display, actor), manifest, w);
  }
}
