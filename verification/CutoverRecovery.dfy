/** Recovery after a cutover: the replay that rebuilds a projection from its event log accepts
    the events the cutover writes. */
module CutoverRecovery {
  import opened Identifiers
  import opened Ledger
  import opened EventLog
  import opened Cutover
  import opened CutoverResponsibilities

  /** What ties the writer to the replayer: the pair stands at its index in the allowlist and
      the operator is no member of the pair (apply_scope checks it for the whole fleet). */
  ghost predicate Allowed(manifest: seq<PairId>, pair: PairId, index: nat, actor: Uuid) {
    1 <= index <= |manifest| && manifest[index - 1] == pair && actor != pair.oldPrincipal && actor != pair.newPrincipal
  }

  /** The number the writer takes from MAX + 1 is the one the replayer counts up to. */
  lemma NumberAgrees(t: Tables, st: Replay, w: Uuid, visit: Uuid)
    requires CountsMatch(t, st) && visit in st.visits
    requires forall v :: v in st.visits <==> v in t.visits && t.visits[v].workflow == w
    ensures NextNumber(t, w, t.visits[visit].node) == Count(st, t.visits[visit].node) + 1
  {
    var node := t.visits[visit].node;
    var numbers := Numbers(t, w, node);
    assert t.visits[visit].number in numbers;
    var top :| top in st.visits && top in t.visits && t.visits[top].node == node && t.visits[top].number == st.counts[node];
    assert t.visits[top].number in numbers;
    assert forall n :: n in numbers ==> n <= st.counts[node];
  }

  /** The replayer accepts the event the writer appends. */
  lemma EventAccepted(t: Tables, manifest: seq<PairId>, pair: PairId, index: nat, r: Responsibility, actor: Uuid,
      st: Replay)
    requires MigrationAccepted(t, pair, index, r, actor) && Allowed(manifest, pair, index, actor)
    requires r.oldPrincipal == pair.oldPrincipal && r.newPrincipal == pair.newPrincipal
    requires t.visits[r.visit].workflow == r.workflow
    requires Projection(st.context, st.visit, st.version) == Current(t.instances[r.workflow])
    requires VisitId(index, r) !in st.visits && Count(st, r.node) + 1 == NextNumber(t, r.workflow, r.node)
    ensures var u := Migrated(t, pair, index, r, actor); var e := NewEvent(t, pair, index, r, actor);
            ApplySuccessor(u, manifest, r.workflow, st, e, e.kind.migration)
            == Some(st.(visits := st.visits + {VisitId(index, r)}, counts := st.counts[r.node := Count(st, r.node) + 1], visit := Some(VisitId(index, r))))
  {
    hide NextNumber, VisitInsertable;
    AcceptedFits(t, pair, index, r, actor);
    var u, e := Migrated(t, pair, index, r, actor), NewEvent(t, pair, index, r, actor);
    var d := e.kind.migration;
    assert u.visits[r.visit] == t.visits[r.visit] && u.visits[VisitId(index, r)] == NewVisit(t, pair, r);
    assert NodeColumns(u, e, r.visit, VisitId(index, r));
    assert d.before == SnapshotAt(u, r.workflow, Projection(st.context, st.visit, st.version));
    assert d.after == SnapshotAt(u, r.workflow, Projection(st.context, e.target, st.version + 1));
    assert IntroduceVisit(u, st, VisitId(index, r)).Some?;
  }

  lemma MigratedAlike(t: Tables, pair: PairId, index: nat, r: Responsibility, actor: Uuid)
    requires MigrationAccepted(t, pair, index, r, actor)
    ensures ReplaysAlike(t, Migrated(t, pair, index, r, actor), r.workflow, if r.version >= 0 then r.version else 0)
  {
    hide NextNumber, DataOf, MigrationAccepted, StepFits;
    AcceptedFits(t, pair, index, r, actor);
  }

  /** The replay of the longer log: one more visit, the current one. */
  lemma MigratedReplay(t: Tables, manifest: seq<PairId>, pair: PairId, index: nat, r: Responsibility, actor: Uuid)
    requires MigrationAccepted(t, pair, index, r, actor) && Allowed(manifest, pair, index, actor)
    requires r.oldPrincipal == pair.oldPrincipal && r.newPrincipal == pair.newPrincipal
    requires r.workflow in t.instances && Rebuildable(t, manifest, r.workflow) && t.visits[r.visit].workflow == r.workflow
    ensures var st := ReplayLog(t, manifest, r.workflow, r.version).value;
            ReplayLog(Migrated(t, pair, index, r, actor), manifest, r.workflow, r.version + 1)
            == Some(Replay(st.contexts, st.visits + {VisitId(index, r)}, st.counts[r.node := Count(st, r.node) + 1],
                           st.context, Some(VisitId(index, r)), r.version + 1))
  {
    hide ApplySuccessor, NextNumber, DataOf, CountsMatch, ReplaysAlike, ReplayLog, IntroduceVisit, MigrationAccepted,
         StepFits;
    AcceptedFits(t, pair, index, r, actor);
    var w, n := r.workflow, r.version;
    var u, e := Migrated(t, pair, index, r, actor), NewEvent(t, pair, index, r, actor);
    var st := ReplayLog(t, manifest, w, n).value;
    ReplayCounts(t, manifest, w, n);
    NumberAgrees(t, st, w, r.visit);
    MigratedAlike(t, pair, index, r, actor);
    ReplayStep(t, u, manifest, w, n, e);
    EventAccepted(t, manifest, pair, index, r, actor, st);
  }

  /** A migrated instance can be rebuilt from its log if it could be before. */
  lemma MigratedRebuildable(t: Tables, manifest: seq<PairId>, pair: PairId, index: nat, r: Responsibility, actor: Uuid)
    requires MigrationAccepted(t, pair, index, r, actor) && Allowed(manifest, pair, index, actor)
    requires r.oldPrincipal == pair.oldPrincipal && r.newPrincipal == pair.newPrincipal
    requires r.workflow in t.instances && Rebuildable(t, manifest, r.workflow) && t.visits[r.visit].workflow == r.workflow
    ensures Rebuildable(Migrated(t, pair, index, r, actor), manifest, r.workflow)
  {
    hide ReplayLog, NextNumber, DataOf, MigrationAccepted, StepFits;
    AcceptedFits(t, pair, index, r, actor);
    var w := r.workflow;
    var u := Migrated(t, pair, index, r, actor);
    MigratedReplay(t, manifest, pair, index, r, actor);
    assert Numbered(u, w);
    assert forall v :: v in u.visits && u.visits[v].workflow == w <==> v == VisitId(index, r) || (v in t.visits && t.visits[v].workflow == w);
  }

  lemma ActiveSource(t: Tables, pair: PairId, index: nat, r: Responsibility, actor: Uuid)
    requires Sound(t) && MigrationAccepted(t, pair, index, r, actor)
    ensures r.visit in t.visits && t.visits[r.visit].workflow == r.workflow
  {
  }

  lemma {:induction false} TuplesRebuildable(t: Tables, manifest: seq<PairId>, pair: PairId, index: nat,
      rs: seq<Responsibility>, actor: Uuid, w: Uuid)
    requires Sound(t) && AllExact(t) && TuplesAccepted(t, pair, index, rs, actor) && Allowed(manifest, pair, index, actor)
    requires forall r :: r in rs ==> r.oldPrincipal == pair.oldPrincipal && r.newPrincipal == pair.newPrincipal
    requires w in t.instances && Rebuildable(t, manifest, w)
    ensures w in TuplesWritten(t, pair, index, rs, actor).instances
    ensures Rebuildable(TuplesWritten(t, pair, index, rs, actor), manifest, w)
    decreases |rs|
  {
    hide Sound, AllExact, MigrationAccepted, Passed, Migrated, Rebuildable, Untouched;
    if rs != [] {
      var u := TupleWritten(t, pair, index, rs[0], actor);
      assert rs[0] in rs;
      TupleKeepsLog(t, pair, index, rs[0], actor);
      TupleFrame(t, pair, index, rs[0], actor);
      if rs[0].workflow == w && !Passed(t, rs[0]) {
        ActiveSource(t, pair, index, rs[0], actor);
        MigratedRebuildable(t, manifest, pair, index, rs[0], actor);
      } else if rs[0].workflow != w {
        TupleUntouched(t, pair, index, rs[0], actor, w);
        UntouchedRebuildable(t, u, manifest, w);
      }
      TuplesRebuildable(u, manifest, pair, index, rs[1..], actor, w);
    }
  }
}
