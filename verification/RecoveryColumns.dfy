/** Which events recovery accepts, read off the columns of the event and of the visits it names. */
module RecoveryColumns {
  import opened Identifiers
  import opened Ledger
  import opened EventLog

  /** A visit of the instance. */
  ghost predicate Own(t: Tables, w: Uuid, id: Option<Uuid>) {
    id.Some? && id.value in t.visits && t.visits[id.value].workflow == w
  }

  ghost predicate OwnContext(t: Tables, w: Uuid, id: Option<Uuid>) {
    id.Some? && id.value in t.contexts && t.contexts[id.value].workflow == w
  }

  /** A visit the replay has not met, with the number that follows the last one of its node. */
  ghost predicate NewVisit(t: Tables, st: Replay, id: Uuid)
    requires id in t.visits
  {
    var node := t.visits[id].node;
    id !in st.visits && t.visits[id].number == (if node in st.counts then st.counts[node] else 0) + 1
  }

  /** What the replay knows after it accepted a move to a new visit. */
  ghost function MovedTo(t: Tables, st: Replay, id: Uuid, context: Option<Uuid>, contexts: set<Uuid>,
      version: int): Replay
    requires id in t.visits
  {
    Replay(contexts, st.visits + {id}, st.counts[t.visits[id].node := t.visits[id].number], context, Some(id), version)
  }

  /** A principal successor event is accepted exactly if its pair is the one the allowlist has at its
      index, both snapshots and every column agree with the replayed state, and its operator is no
      member of the pair. */
  lemma SuccessorExactly(t: Tables, manifest: seq<PairId>, w: Uuid, st: Replay, e: Event, k: int)
    requires w in t.instances && e.kind.SuccessorMigration?
    ensures var d, i := e.kind.migration, t.instances[w];
            var next := ReplayEvent(t, manifest, w, st, e, k);
            && (next.Some? <==>
                  && e.oldVersion == st.version && e.newVersion == k && 1 <= d.index <= |manifest|
                  && Own(t, w, e.source) && Own(t, w, e.target) && NewVisit(t, st, e.target.value)
                  && e.source == st.visit && e.context == st.context && e.submission == None && e.effect == None && e.command != None
                  && var p, s, v := manifest[d.index - 1], t.visits[e.source.value], t.visits[e.target.value];
                     && d.migration == MigrationId(p.oldPrincipal, p.newPrincipal) && d.oldAgent == p.oldAgent && d.newAgent == p.newAgent
                     && d.oldPrincipal == p.oldPrincipal && d.newPrincipal == p.newPrincipal
                     && e.actor != p.oldPrincipal && e.actor != p.newPrincipal
                     && s.assignee == Some(p.oldPrincipal) && v.assignee == Some(p.newPrincipal) && v.byTransition == None
                     && s.node == v.node == d.node && e.fromNode == Some(s.node) && e.toNode == Some(v.node)
                     && d.workflow == w && Some(d.oldVisit) == e.source && Some(d.newVisit) == e.target
                     && d.expected == st.version && d.resulting == st.version + 1
                     && d.before == Snapshot(w, i.domain, i.definitionVersion, i.creator, Projection(st.context, st.visit, st.version))
                     && d.after == Snapshot(w, i.domain, i.definitionVersion, i.creator, Projection(st.context, e.target, st.version + 1)))
            && (next.Some? ==> next.value == MovedTo(t, st, e.target.value, st.context, st.contexts, k))
  {
  }

  /** A transition without a context change: contiguous, from the current visit to a new one that a
      definition transition entered, under the current context. */
  lemma TransitionExactly(t: Tables, manifest: seq<PairId>, w: Uuid, st: Replay, e: Event, k: int)
    requires w in t.instances && e.kind.Transition?
    ensures var next := ReplayEvent(t, manifest, w, st, e, k);
            && (next.Some? <==>
                  && e.oldVersion == st.version && e.newVersion == k && e.payloadValid && e.context == st.context && e.source == st.visit
                  && Own(t, w, e.source) && Own(t, w, e.target) && NewVisit(t, st, e.target.value)
                  && t.visits[e.target.value].byTransition != None
                  && e.fromNode == Some(t.visits[e.source.value].node) && e.toNode == Some(t.visits[e.target.value].node))
            && (next.Some? ==> next.value == MovedTo(t, st, e.target.value, st.context, st.contexts, k))
  {
  }

  /** The same with a new context. */
  lemma RevisedTransitionExactly(t: Tables, manifest: seq<PairId>, w: Uuid, st: Replay, e: Event, k: int)
    requires w in t.instances && e.kind.RevisedAndTransitioned?
    ensures var next := ReplayEvent(t, manifest, w, st, e, k);
            && (next.Some? <==>
                  && e.oldVersion == st.version && e.newVersion == k && e.payloadValid && e.source == st.visit
                  && OwnContext(t, w, e.context) && e.context.value !in st.contexts
                  && Own(t, w, e.source) && Own(t, w, e.target) && NewVisit(t, st, e.target.value)
                  && t.visits[e.target.value].byTransition != None
                  && e.fromNode == Some(t.visits[e.source.value].node) && e.toNode == Some(t.visits[e.target.value].node))
            && (next.Some? ==> next.value == MovedTo(t, st, e.target.value, e.context, st.contexts + {e.context.value}, k))
  {
  }

  /** An administrative override: to a new visit that no definition transition entered. */
  lemma AdminExactly(t: Tables, manifest: seq<PairId>, w: Uuid, st: Replay, e: Event, k: int)
    requires w in t.instances && e.kind.AdminOverride?
    ensures var next := ReplayEvent(t, manifest, w, st, e, k);
            && (next.Some? <==>
                  && e.oldVersion == st.version && e.newVersion == k && e.payloadValid && e.context == st.context && e.source == st.visit
                  && e.submission == None && Own(t, w, e.source) && Own(t, w, e.target) && NewVisit(t, st, e.target.value)
                  && t.visits[e.target.value].byTransition == None
                  && e.fromNode == Some(t.visits[e.source.value].node) && e.toNode == Some(t.visits[e.target.value].node))
            && (next.Some? ==> next.value == MovedTo(t, st, e.target.value, st.context, st.contexts, k))
  {
  }

  /** The first event, and no other, introduces the first visit together with the first context. */
  lemma InitialExactly(t: Tables, manifest: seq<PairId>, w: Uuid, st: Replay, e: Event, k: int)
    requires w in t.instances && e.kind.Initial?
    ensures var next := ReplayEvent(t, manifest, w, st, e, k);
            && (next.Some? <==>
                  && e.oldVersion == st.version == 0 && e.newVersion == k && e.payloadValid
                  && e.source == None && e.submission == None && e.effect == None && e.fromNode == None && e.toNode == None
                  && OwnContext(t, w, e.context) && e.context.value !in st.contexts
                  && Own(t, w, e.target) && NewVisit(t, st, e.target.value)
                  && t.visits[e.target.value].number == 1 && t.visits[e.target.value].byTransition == None)
            && (next.Some? ==> next.value == MovedTo(t, st, e.target.value, e.context, st.contexts + {e.context.value}, k))
  {
  }

  /** A context revision stays at the current visit; an assistance event changes nothing but the
      version; a normalization and any unknown kind is refused whatever its columns. */
  lemma StandingExactly(t: Tables, manifest: seq<PairId>, w: Uuid, st: Replay, e: Event, k: int)
    requires w in t.instances
    ensures var next := ReplayEvent(t, manifest, w, st, e, k);
            && (e.kind.ContextRevised? ==>
                  (next.Some? <==> && e.oldVersion == st.version && e.newVersion == k && e.payloadValid
                                   && e.source == st.visit && e.target == st.visit && Own(t, w, e.source)
                                   && e.submission == None && e.effect == None && e.fromNode == None && e.toNode == None
                                   && OwnContext(t, w, e.context) && e.context.value !in st.contexts)
                  && (next.Some? ==> next.value == st.(contexts := st.contexts + {e.context.value}, context := e.context, version := k)))
            && (e.kind.Assistance? ==>
                  (next.Some? <==> && e.oldVersion == st.version && e.newVersion == k && e.payloadValid
                                   && e.source == st.visit && e.target == st.visit && e.context == st.context)
                  && (next.Some? ==> next.value == st.(version := k)))
            && (e.kind.HumanNormalized? || e.kind.OtherEvent? ==> next.None?)
  {
  }

  /** Recovery answers for exactly the logs that are complete, replay, end in the stored row, and
      account for every visit and context of the instance. */
  lemma RebuildableExactly(t: Tables, manifest: seq<PairId>, w: Uuid)
    requires w in t.instances
    ensures var i := t.instances[w];
            Rebuildable(t, manifest, w)
            <==> && 1 <= i.version && (forall k: int :: Slot(w, k) in t.events <==> 1 <= k <= i.version)
                 && ReplayLog(t, manifest, w, i.version).Some?
                 && var st := ReplayLog(t, manifest, w, i.version).value;
                    && st.context == i.context && st.visit == i.visit && st.version == i.version
                    && (forall v :: v in t.visits && t.visits[v].workflow == w <==> v in st.visits)
                    && (forall c :: c in t.contexts && t.contexts[c].workflow == w <==> c in st.contexts)
  {
    hide ReplayLog;
  }
}
