/** The append-only event log, the projection it determines, and the recovery replay that
    rebuilds an instance from its log. */
module EventLog {
  import opened Identifiers
  import opened Ledger

  // ---------------------------------------------------------------------------
  // Structural fold: the log determines the current context, visit and version
  // ---------------------------------------------------------------------------

  function Advance(p: Projection, e: Event): Projection {
    Projection(if e.context.Some? then e.context else p.context,
               if e.target.Some? then e.target else p.visit,
               e.newVersion)
  }

  /** The fold of the first `n` events of instance `w`. */
  function Fold(events: map<Slot, Event>, w: Uuid, n: nat): Projection {
    if n == 0 || Slot(w, n) !in events then Projection(None, None, 0)
    else Advance(Fold(events, w, n - 1), events[Slot(w, n)])
  }

  function Current(i: Instance): Projection {
    Projection(i.context, i.visit, i.version)
  }

  /** The events of `w` are numbered exactly 1..version and their fold is the projection. */
  ghost predicate Exact(t: Tables, w: Uuid)
    requires w in t.instances
  {
    var i := t.instances[w];
    && 1 <= i.version
    && (forall k: int :: Slot(w, k) in t.events <==> 1 <= k <= i.version)
    && Fold(t.events, w, i.version) == Current(i)
  }

  ghost predicate AllExact(t: Tables) {
    && (forall w :: w in t.instances ==> Exact(t, w))
    && (forall s :: s in t.events ==> s.workflow in t.instances)
  }

  /** What the fold of a complete log says: the version of its last event, the context of the last
      event that has one, event `c`, and the target of the last event that has one, event `v`;
      zero stands for no such event. */
  lemma FoldIsLast(events: map<Slot, Event>, w: Uuid, n: nat, c: nat, v: nat)
    requires c <= n && v <= n && forall k: int :: 1 <= k <= n ==> Slot(w, k) in events
    requires (c > 0 ==> events[Slot(w, c)].context != None) && forall k: int :: c < k <= n ==> events[Slot(w, k)].context == None
    requires (v > 0 ==> events[Slot(w, v)].target != None) && forall k: int :: v < k <= n ==> events[Slot(w, k)].target == None
    ensures Fold(events, w, n)
         == Projection(if c == 0 then None else events[Slot(w, c)].context,
                       if v == 0 then None else events[Slot(w, v)].target,
                       if n == 0 then 0 else events[Slot(w, n)].newVersion)
  {
    FoldContextLast(events, w, n, c);
    FoldTargetLast(events, w, n, v);
  }

  lemma {:induction false} FoldContextLast(events: map<Slot, Event>, w: Uuid, n: nat, c: nat)
    requires c <= n && forall k: int :: 1 <= k <= n ==> Slot(w, k) in events
    requires (c > 0 ==> events[Slot(w, c)].context != None) && forall k: int :: c < k <= n ==> events[Slot(w, k)].context == None
    ensures Fold(events, w, n).context == if c == 0 then None else events[Slot(w, c)].context
  {
    if c < n {
      FoldContextLast(events, w, n - 1, c);
    }
  }

  lemma {:induction false} FoldTargetLast(events: map<Slot, Event>, w: Uuid, n: nat, v: nat)
    requires v <= n && forall k: int :: 1 <= k <= n ==> Slot(w, k) in events
    requires (v > 0 ==> events[Slot(w, v)].target != None) && forall k: int :: v < k <= n ==> events[Slot(w, k)].target == None
    ensures Fold(events, w, n).visit == if v == 0 then None else events[Slot(w, v)].target
  {
    if v < n {
      FoldTargetLast(events, w, n - 1, v);
    }
  }

  /** The fold only looks at the slots it folds. */
  lemma {:induction false} FoldCongruent(a: map<Slot, Event>, b: map<Slot, Event>, w: Uuid, n: nat)
    requires forall k: int :: 1 <= k <= n ==> Slot(w, k) in a && Slot(w, k) in b && a[Slot(w, k)] == b[Slot(w, k)]
    ensures Fold(a, w, n) == Fold(b, w, n)
  {
    if n > 0 {
      FoldCongruent(a, b, w, n - 1);
    }
  }

  // ---------------------------------------------------------------------------
  // What a run leaves alone
  // ---------------------------------------------------------------------------

  lemma HistoryKeptReflexive(t: Tables)
    ensures HistoryKept(t, t)
  {
  }

  lemma HistoryKeptTransitive(t: Tables, u: Tables, x: Tables)
    requires HistoryKept(t, u) && HistoryKept(u, x)
    ensures HistoryKept(t, x)
  {
  }

  /** Only visits, events, receipts and instances may differ. */
  ghost predicate SameElsewhere(t: Tables, u: Tables) {
    u == t.(visits := u.visits, events := u.events, receipts := u.receipts, instances := u.instances)
  }

  lemma SameColumns(t: Tables, u: Tables)
    requires SameElsewhere(t, u)
    ensures u.audits == t.audits && u.domains == t.domains && u.principals == t.principals && u.bindings == t.bindings
    ensures u.nodes == t.nodes && u.contexts == t.contexts && u.definitions == t.definitions && u.openAssistance == t.openAssistance
  {
  }

  ghost predicate Untouched(t: Tables, u: Tables, w: Uuid) {
    && (w in t.instances <==> w in u.instances)
    && (w in t.instances ==> u.instances[w] == t.instances[w])
    && (forall v :: v in t.visits && t.visits[v].workflow == w ==> v in u.visits && u.visits[v] == t.visits[v])
    && (forall v :: v in u.visits && u.visits[v].workflow == w ==> v in t.visits && u.visits[v] == t.visits[v])
    && (forall k: int :: Slot(w, k) in t.events <==> Slot(w, k) in u.events)
    && (forall k: int :: Slot(w, k) in t.events ==> u.events[Slot(w, k)] == t.events[Slot(w, k)])
  }

  lemma UntouchedReflexive(t: Tables, w: Uuid)
    ensures Untouched(t, t, w)
  {
  }

  lemma UntouchedTransitive(t: Tables, u: Tables, x: Tables, w: Uuid)
    requires Untouched(t, u, w) && Untouched(u, x, w)
    ensures Untouched(t, x, w)
  {
  }

  /** Exactness of an instance's log depends on nothing but that instance's own rows. */
  lemma UntouchedExact(t: Tables, u: Tables, w: Uuid)
    requires w in t.instances && Untouched(t, u, w) && Exact(t, w)
    ensures Exact(u, w)
  {
    FoldCongruent(t.events, u.events, w, t.instances[w].version);
  }

  // ---------------------------------------------------------------------------
  // One operator step on one instance
  // ---------------------------------------------------------------------------

  /** What a responsibility migration and a normalization row have in common: one new visit
      of the same node, one new event, one new version, nothing else of the instance. */
  function Stepped(t: Tables, w: Uuid, visit: Uuid, v: Visit, e: Event): Tables
    requires w in t.instances
  {
    t.(visits := t.visits[visit := v],
       events := t.events[Slot(w, e.newVersion) := e],
       instances := t.instances[w := t.instances[w].(visit := Some(visit), version := e.newVersion)])
  }

  /** The shape of such a step. */
  ghost predicate StepFits(t: Tables, w: Uuid, visit: Uuid, v: Visit, e: Event) {
    && w in t.instances
    && v.workflow == w
    && VisitInsertable(t, visit, v)
    && e.target == Some(visit) && e.source == t.instances[w].visit && e.context == t.instances[w].context
    && e.oldVersion == t.instances[w].version && e.newVersion == t.instances[w].version + 1
    && (forall r :: r in t.events ==> t.events[r].id != e.id)
    && (e.command.Some? ==> forall r :: r in t.events ==> t.events[r].command != e.command)
  }

  /** Only the stepped instance is touched. */
  lemma StepUntouched(t: Tables, w: Uuid, visit: Uuid, v: Visit, e: Event, x: Uuid)
    requires StepFits(t, w, visit, v, e) && x != w
    ensures Untouched(t, Stepped(t, w, visit, v, e), x)
  {
  }

  lemma StepFrame(t: Tables, w: Uuid, visit: Uuid, v: Visit, e: Event)
    requires StepFits(t, w, visit, v, e) && Slot(w, e.newVersion) !in t.events
    ensures var u := Stepped(t, w, visit, v, e);
            && HistoryKept(t, u) && SameElsewhere(t, u) && u.instances.Keys == t.instances.Keys
            && |u.visits| == |t.visits| + 1 && |u.events| == |t.events| + 1 && u.receipts == t.receipts
  {
  }

  lemma ReceiptFrame(t: Tables, command: Uuid, r: Receipt)
    requires command !in t.receipts
    ensures var u := t.(receipts := t.receipts[command := r]); HistoryKept(t, u) && |u.receipts| == |t.receipts| + 1
  {
  }

  lemma ReceiptUntouched(t: Tables, command: Uuid, r: Receipt, w: Uuid)
    ensures Untouched(t, t.(receipts := t.receipts[command := r]), w)
  {
  }

  lemma SteppedExact(t: Tables, w: Uuid, visit: Uuid, v: Visit, e: Event)
    requires StepFits(t, w, visit, v, e) && Exact(t, w)
    ensures Slot(w, e.newVersion) !in t.events
    ensures Exact(Stepped(t, w, visit, v, e), w)
  {
    var n := t.instances[w].version;
    assert Slot(w, n + 1) !in t.events;
    FoldCongruent(t.events, Stepped(t, w, visit, v, e).events, w, n);
  }

  /** The log stays exact for every instance; exactly one event and one visit are added. */
  lemma StepKeepsExact(t: Tables, w: Uuid, visit: Uuid, v: Visit, e: Event)
    requires AllExact(t) && StepFits(t, w, visit, v, e)
    ensures Slot(w, e.newVersion) !in t.events
    ensures AllExact(Stepped(t, w, visit, v, e))
    ensures HistoryKept(t, Stepped(t, w, visit, v, e))
  {
    hide Exact, Untouched;
    var u := Stepped(t, w, visit, v, e);
    SteppedExact(t, w, visit, v, e);
    forall x | x in u.instances && x != w ensures Exact(u, x) {
      StepUntouched(t, w, visit, v, e, x);
      UntouchedExact(t, u, x);
    }
  }

  lemma StepKeepsVisits(t: Tables, w: Uuid, visit: Uuid, v: Visit, e: Event)
    requires VisitsSound(t) && InstancesSound(t) && StepFits(t, w, visit, v, e)
    ensures VisitsSound(Stepped(t, w, visit, v, e)) && InstancesSound(Stepped(t, w, visit, v, e))
  {
  }

  lemma StepKeepsEvents(t: Tables, w: Uuid, visit: Uuid, v: Visit, e: Event)
    requires InstancesSound(t) && EventsSound(t) && StepFits(t, w, visit, v, e)
    ensures EventsSound(Stepped(t, w, visit, v, e))
  {
  }

  lemma StepKeepsEventIds(t: Tables, w: Uuid, visit: Uuid, v: Visit, e: Event)
    requires EventsUnique(t) && StepFits(t, w, visit, v, e)
    ensures EventsUnique(Stepped(t, w, visit, v, e))
  {
    UniqueExtended(t.events, Slot(w, e.newVersion), e);
  }

  /** All of it together: one step keeps the schema, the exact logs and the history. */
  lemma StepKeepsLog(t: Tables, w: Uuid, visit: Uuid, v: Visit, e: Event)
    requires Sound(t) && AllExact(t) && StepFits(t, w, visit, v, e)
    ensures var u := Stepped(t, w, visit, v, e); Sound(u) && AllExact(u) && HistoryKept(t, u)
  {
    StepKeepsExact(t, w, visit, v, e);
    StepKeepsVisits(t, w, visit, v, e);
    StepKeepsEvents(t, w, visit, v, e);
    StepKeepsEventIds(t, w, visit, v, e);
  }

  lemma SameLogExact(t: Tables, u: Tables)
    requires t.instances == u.instances && t.events == u.events
    ensures AllExact(t) <==> AllExact(u)
  {
    forall w | w in t.instances ensures Exact(t, w) <==> Exact(u, w) {
    }
  }

  /** The constraints on visits, instances and events depend on those tables alone. */
  lemma SameRowsSound(t: Tables, u: Tables)
    requires t.visits == u.visits && t.instances == u.instances && t.events == u.events && t.nodes == u.nodes && t.contexts == u.contexts
    ensures VisitsSound(t) == VisitsSound(u) && InstancesSound(t) == InstancesSound(u)
    ensures EventsSound(t) == EventsSound(u) && EventsUnique(t) == EventsUnique(u)
  {
  }

  lemma ReceiptKeepsLog(t: Tables, command: Uuid, r: Receipt)
    requires Sound(t) && AllExact(t) && ReceiptInsertable(t, command, r.principal, r.key)
    ensures var u := t.(receipts := t.receipts[command := r]); Sound(u) && AllExact(u)
  {
    hide VisitsSound, InstancesSound, EventsSound, EventsUnique, AllExact;
    var u := t.(receipts := t.receipts[command := r]);
    SameRowsSound(t, u);
    SameLogExact(t, u);
  }

  lemma AuditKeepsLog(t: Tables, id: Uuid, a: Audit)
    requires Sound(t) && AllExact(t) && id !in t.audits
    ensures var u := t.(audits := t.audits[id := a]); Sound(u) && AllExact(u) && HistoryKept(t, u)
  {
    hide VisitsSound, InstancesSound, EventsSound, EventsUnique, AllExact;
    var u := t.(audits := t.audits[id := a]);
    SameRowsSound(t, u);
    SameLogExact(t, u);
  }

  lemma UniqueExtended(events: map<Slot, Event>, s: Slot, e: Event)
    requires IdsUnique(events)
    requires forall r :: r in events ==> events[r].id != e.id
    requires e.command.Some? ==> forall r :: r in events ==> events[r].command != e.command
    ensures IdsUnique(events[s := e])
  {
  }

  // ---------------------------------------------------------------------------
  // Recovery replay
  // ---------------------------------------------------------------------------

  /** One row of the compiled pair allowlist. */
  datatype PairId = PairId(oldAgent: string, newAgent: string, oldPrincipal: Uuid, newPrincipal: Uuid)

  datatype Replay = Replay(
    contexts: set<Uuid>, visits: set<Uuid>, counts: map<Uuid, int>,
    context: Option<Uuid>, visit: Option<Uuid>, version: int)

  const Start := Replay({}, {}, map[], None, None, 0)

  predicate VisitOf(t: Tables, w: Uuid, id: Option<Uuid>) {
    id.Some? && id.value in t.visits && t.visits[id.value].workflow == w
  }

  predicate ContextOf(t: Tables, w: Uuid, id: Option<Uuid>) {
    id.Some? && id.value in t.contexts && t.contexts[id.value].workflow == w
  }

  function Count(st: Replay, node: Uuid): int {
    if node in st.counts then st.counts[node] else 0
  }

  /** A visit is introduced once, and its number follows the order of the events. */
  function IntroduceVisit(t: Tables, st: Replay, id: Uuid): Option<Replay>
    requires id in t.visits
  {
    var v := t.visits[id];
    if id in st.visits || v.number != Count(st, v.node) + 1 then None
    else Some(st.(visits := st.visits + {id}, counts := st.counts[v.node := v.number], visit := Some(id)))
  }

  function IntroduceContext(st: Replay, id: Uuid): Option<Replay> {
    if id in st.contexts then None
    else Some(st.(contexts := st.contexts + {id}, context := Some(id)))
  }

  function SnapshotAt(t: Tables, w: Uuid, p: Projection): Snapshot
    requires w in t.instances
  {
    var i := t.instances[w];
    Snapshot(w, i.domain, i.definitionVersion, i.creator, p)
  }

  predicate NodeColumns(t: Tables, e: Event, source: Uuid, target: Uuid)
    requires source in t.visits && target in t.visits
  {
    e.fromNode == Some(t.visits[source].node) && e.toNode == Some(t.visits[target].node)
  }

  function ApplyInitial(t: Tables, w: Uuid, st: Replay, e: Event): Option<Replay> {
    if !(e.payloadValid && ContextOf(t, w, e.context) && VisitOf(t, w, e.target)) then None
    else if st.version != 0 || e.source.Some? || e.submission.Some? || e.effect.Some?
            || e.fromNode.Some? || e.toNode.Some?
            || t.visits[e.target.value].byTransition.Some? || t.visits[e.target.value].number != 1 then None
    else match IntroduceContext(st, e.context.value)
      case None => None
      case Some(s) => IntroduceVisit(t, s, e.target.value)
  }

  function ApplyContextRevised(t: Tables, w: Uuid, st: Replay, e: Event): Option<Replay> {
    if !(e.payloadValid && ContextOf(t, w, e.context) && VisitOf(t, w, e.source)) then None
    else if e.source != st.visit || e.target != st.visit || e.submission.Some? || e.effect.Some?
            || e.fromNode.Some? || e.toNode.Some? then None
    else IntroduceContext(st, e.context.value)
  }

  /** A move to a newly introduced visit that a definition transition entered. */
  function ApplyTransition(t: Tables, w: Uuid, st: Replay, e: Event): Option<Replay> {
    if !(e.payloadValid && VisitOf(t, w, e.source) && VisitOf(t, w, e.target)) then None
    else if e.source != st.visit || t.visits[e.target.value].byTransition.None?
            || !NodeColumns(t, e, e.source.value, e.target.value) then None
    else IntroduceVisit(t, st, e.target.value)
  }

  function ApplyAdmin(t: Tables, w: Uuid, st: Replay, e: Event): Option<Replay> {
    if !(e.payloadValid && VisitOf(t, w, e.source) && VisitOf(t, w, e.target)) then None
    else if e.source != st.visit || e.context != st.context || e.submission.Some?
            || t.visits[e.target.value].byTransition.Some?
            || !NodeColumns(t, e, e.source.value, e.target.value) then None
    else IntroduceVisit(t, st, e.target.value)
  }

  /** The allowlist-bound checks of a principal successor migration event. */
  function ApplySuccessor(t: Tables, manifest: seq<PairId>, w: Uuid, st: Replay, e: Event,
      d: MigrationData): Option<Replay>
    requires w in t.instances
  {
    if !(1 <= d.index <= |manifest|) then None
    else
      var pair := manifest[d.index - 1];
      if d.migration != MigrationId(pair.oldPrincipal, pair.newPrincipal) then None
      else if !(VisitOf(t, w, e.source) && VisitOf(t, w, e.target)) then None
      else
        var source, target := t.visits[e.source.value], t.visits[e.target.value];
        if d.oldAgent != pair.oldAgent || d.newAgent != pair.newAgent
           || d.oldPrincipal != pair.oldPrincipal || d.newPrincipal != pair.newPrincipal
           || d.workflow != w || d.oldVisit != e.source.value || d.newVisit != e.target.value
           || d.node != source.node || d.expected != st.version || d.resulting != st.version + 1
           || d.before != SnapshotAt(t, w, Projection(st.context, st.visit, st.version))
           || e.command.None? || e.actor == pair.oldPrincipal || e.actor == pair.newPrincipal
           || e.source != st.visit || e.context != st.context || e.submission.Some? || e.effect.Some?
           || e.target.value in st.visits || target.byTransition.Some? || source.node != target.node
           || source.assignee != Some(pair.oldPrincipal) || target.assignee != Some(pair.newPrincipal)
           || !NodeColumns(t, e, e.source.value, e.target.value)
           || d.after != SnapshotAt(t, w, Projection(st.context, e.target, st.version + 1)) then None
        else IntroduceVisit(t, st, e.target.value)
  }

  /** One event: contiguity first, then the kind's own checks; unknown kinds are rejected. */
  function ReplayEvent(t: Tables, manifest: seq<PairId>, w: Uuid, st: Replay, e: Event, sequence: int): Option<Replay>
    requires w in t.instances
  {
    if e.oldVersion != st.version || e.newVersion != sequence then None
    else
      var next := match e.kind
        case Initial => ApplyInitial(t, w, st, e)
        case ContextRevised => ApplyContextRevised(t, w, st, e)
        case Transition => if e.context != st.context then None else ApplyTransition(t, w, st, e)
        case RevisedAndTransitioned =>
          if !ContextOf(t, w, e.context) then None
          else (match IntroduceContext(st, e.context.value)
                case None => None
                case Some(s) => ApplyTransition(t, w, s, e))
        case AdminOverride => ApplyAdmin(t, w, st, e)
        case Assistance =>
          if e.payloadValid && e.source == st.visit && e.target == st.visit && e.context == st.context then Some(st) else None
        case SuccessorMigration(d) => ApplySuccessor(t, manifest, w, st, e, d)
        case HumanNormalized(_) => None
        case OtherEvent(_) => None;
      match next
      case None => None
      case Some(s) => Some(s.(version := sequence))
  }

  function ReplayLog(t: Tables, manifest: seq<PairId>, w: Uuid, n: nat): Option<Replay>
    requires w in t.instances
  {
    if n == 0 then Some(Start)
    else if Slot(w, n) !in t.events then None
    else match ReplayLog(t, manifest, w, n - 1)
      case None => None
      case Some(st) => ReplayEvent(t, manifest, w, st, t.events[Slot(w, n)], n)
  }

  /** The replay ends in the stored projection and leaves no visit or context unintroduced. */
  ghost predicate RebuiltTo(t: Tables, w: Uuid, st: Replay)
    requires w in t.instances
  {
    && Projection(st.context, st.visit, st.version) == Current(t.instances[w])
    && (forall v :: v in st.visits <==> v in t.visits && t.visits[v].workflow == w)
    && (forall c :: c in st.contexts <==> c in t.contexts && t.contexts[c].workflow == w)
  }

  /** The events of `w` are numbered exactly 1..version. */
  ghost predicate Numbered(t: Tables, w: Uuid)
    requires w in t.instances
  {
    1 <= t.instances[w].version && forall k: int :: Slot(w, k) in t.events <==> 1 <= k <= t.instances[w].version
  }

  /** reconstruct_projection succeeds and returns the stored projection. */
  ghost predicate Rebuildable(t: Tables, manifest: seq<PairId>, w: Uuid)
    requires w in t.instances
  {
    && Numbered(t, w)
    && ReplayLog(t, manifest, w, t.instances[w].version).Some?
    && RebuiltTo(t, w, ReplayLog(t, manifest, w, t.instances[w].version).value)
  }

  /** Tables in which instance `w` replays alike: same static columns, same contexts, the same
      first `n` events, and no visit lost. */
  ghost predicate ReplaysAlike(t: Tables, u: Tables, w: Uuid, n: nat) {
    && w in t.instances && w in u.instances
    && t.instances[w].domain == u.instances[w].domain
    && t.instances[w].definitionVersion == u.instances[w].definitionVersion
    && t.instances[w].creator == u.instances[w].creator
    && t.contexts == u.contexts
    && (forall v :: v in t.visits && t.visits[v].workflow == w ==> v in u.visits && u.visits[v] == t.visits[v])
    && (forall k: int :: 1 <= k <= n && Slot(w, k) in t.events ==> Slot(w, k) in u.events && u.events[Slot(w, k)] == t.events[Slot(w, k)])
  }

  lemma SuccessorMonotone(t: Tables, u: Tables, manifest: seq<PairId>, w: Uuid, st: Replay, e: Event, d: MigrationData)
    requires ReplaysAlike(t, u, w, 0) && ApplySuccessor(t, manifest, w, st, e, d).Some?
    ensures ApplySuccessor(u, manifest, w, st, e, d) == ApplySuccessor(t, manifest, w, st, e, d)
  {
  }

  lemma InitialMonotone(t: Tables, u: Tables, w: Uuid, st: Replay, e: Event)
    requires ReplaysAlike(t, u, w, 0) && ApplyInitial(t, w, st, e).Some?
    ensures ApplyInitial(u, w, st, e) == ApplyInitial(t, w, st, e)
  {
  }

  lemma RevisionMonotone(t: Tables, u: Tables, w: Uuid, st: Replay, e: Event)
    requires ReplaysAlike(t, u, w, 0) && ApplyContextRevised(t, w, st, e).Some?
    ensures ApplyContextRevised(u, w, st, e) == ApplyContextRevised(t, w, st, e)
  {
  }

  lemma TransitionMonotone(t: Tables, u: Tables, w: Uuid, st: Replay, e: Event)
    requires ReplaysAlike(t, u, w, 0) && ApplyTransition(t, w, st, e).Some?
    ensures ApplyTransition(u, w, st, e) == ApplyTransition(t, w, st, e)
  {
  }

  lemma AdminMonotone(t: Tables, u: Tables, w: Uuid, st: Replay, e: Event)
    requires ReplaysAlike(t, u, w, 0) && ApplyAdmin(t, w, st, e).Some?
    ensures ApplyAdmin(u, w, st, e) == ApplyAdmin(t, w, st, e)
  {
  }

  lemma ReplayEventMonotone(t: Tables, u: Tables, manifest: seq<PairId>, w: Uuid, st: Replay, e: Event, k: int)
    requires ReplaysAlike(t, u, w, 0) && ReplayEvent(t, manifest, w, st, e, k).Some?
    ensures ReplayEvent(u, manifest, w, st, e, k) == ReplayEvent(t, manifest, w, st, e, k)
  {
    hide ApplySuccessor, ApplyInitial, ApplyContextRevised, ApplyTransition, ApplyAdmin;
    match e.kind
    case Initial => InitialMonotone(t, u, w, st, e);
    case ContextRevised => RevisionMonotone(t, u, w, st, e);
    case Transition => TransitionMonotone(t, u, w, st, e);
    case RevisedAndTransitioned => TransitionMonotone(t, u, w, IntroduceContext(st, e.context.value).value, e);
    case AdminOverride => AdminMonotone(t, u, w, st, e);
    case Assistance =>
    case SuccessorMigration(d) => SuccessorMonotone(t, u, manifest, w, st, e, d);
  }

  /** A replay that succeeded keeps succeeding when later facts are appended. */
  lemma {:induction false} ReplayMonotone(t: Tables, u: Tables, manifest: seq<PairId>, w: Uuid, n: nat)
    requires ReplaysAlike(t, u, w, n) && ReplayLog(t, manifest, w, n).Some?
    ensures ReplayLog(u, manifest, w, n) == ReplayLog(t, manifest, w, n)
  {
    if n > 0 {
      ReplayMonotone(t, u, manifest, w, n - 1);
      ReplayEventMonotone(t, u, manifest, w, ReplayLog(t, manifest, w, n - 1).value, t.events[Slot(w, n)], n);
    }
  }

  /** Replaying one event more, after later facts were appended. */
  lemma ReplayStep(t: Tables, u: Tables, manifest: seq<PairId>, w: Uuid, n: nat, e: Event)
    requires ReplaysAlike(t, u, w, n) && ReplayLog(t, manifest, w, n).Some?
    requires Slot(w, n + 1) in u.events && u.events[Slot(w, n + 1)] == e
    ensures ReplayLog(u, manifest, w, n + 1) == ReplayEvent(u, manifest, w, ReplayLog(t, manifest, w, n).value, e, n + 1)
  {
    ReplayMonotone(t, u, manifest, w, n);
  }

  /** Recovery of an instance depends on nothing but that instance's own rows. */
  lemma UntouchedRebuildable(t: Tables, u: Tables, manifest: seq<PairId>, w: Uuid)
    requires w in t.instances && Untouched(t, u, w) && t.contexts == u.contexts
    ensures w in u.instances && (Rebuildable(t, manifest, w) <==> Rebuildable(u, manifest, w))
  {
    var i := t.instances[w];
    if 1 <= i.version {
      assert ReplaysAlike(t, u, w, i.version) && ReplaysAlike(u, t, w, i.version);
      if ReplayLog(t, manifest, w, i.version).Some? {
        ReplayMonotone(t, u, manifest, w, i.version);
      }
      if ReplayLog(u, manifest, w, i.version).Some? {
        ReplayMonotone(u, t, manifest, w, i.version);
      }
    }
  }

  /** A log that contains a normalization event is rejected, wherever the event stands. */
  lemma {:induction false} NormalizedLogRejected(t: Tables, manifest: seq<PairId>, w: Uuid, k: nat, n: nat)
    requires w in t.instances && 1 <= k <= n
    requires Slot(w, k) in t.events && t.events[Slot(w, k)].kind.HumanNormalized?
    ensures ReplayLog(t, manifest, w, n).None?
  {
    if k < n {
      NormalizedLogRejected(t, manifest, w, k, n - 1);
    }
  }

  /** How often a node was visited by the replay, and by which numbers. */
  ghost predicate CountsMatch(t: Tables, st: Replay) {
    && (forall v :: v in st.visits ==> v in t.visits && 1 <= t.visits[v].number <= Count(st, t.visits[v].node))
    && (forall node :: node in st.counts ==> st.counts[node] >= 1)
    && (forall node :: node in st.counts ==> exists v :: v in st.visits && v in t.visits && t.visits[v].node == node && t.visits[v].number == st.counts[node])
  }

  lemma IntroduceKeepsCounts(t: Tables, st: Replay, id: Uuid)
    requires CountsMatch(t, st) && id in t.visits && IntroduceVisit(t, st, id).Some?
    ensures CountsMatch(t, IntroduceVisit(t, st, id).value)
  {
    var s := IntroduceVisit(t, st, id).value;
    forall node | node in s.counts
      ensures s.counts[node] >= 1 && exists v :: v in s.visits && v in t.visits && t.visits[v].node == node && t.visits[v].number == s.counts[node]
    {
      if node == t.visits[id].node {
        assert id in s.visits;
      } else {
        var v :| v in st.visits && v in t.visits && t.visits[v].node == node && t.visits[v].number == st.counts[node];
        assert v in s.visits;
      }
    }
  }

  lemma ReplayEventCounts(t: Tables, manifest: seq<PairId>, w: Uuid, st: Replay, e: Event, k: int)
    requires w in t.instances && CountsMatch(t, st) && ReplayEvent(t, manifest, w, st, e, k).Some?
    ensures CountsMatch(t, ReplayEvent(t, manifest, w, st, e, k).value)
  {
    match e.kind
    case Initial => IntroduceKeepsCounts(t, IntroduceContext(st, e.context.value).value, e.target.value);
    case ContextRevised =>
    case Transition => IntroduceKeepsCounts(t, st, e.target.value);
    case RevisedAndTransitioned => IntroduceKeepsCounts(t, IntroduceContext(st, e.context.value).value, e.target.value);
    case AdminOverride => IntroduceKeepsCounts(t, st, e.target.value);
    case Assistance =>
    case SuccessorMigration(d) => IntroduceKeepsCounts(t, st, e.target.value);
  }

  lemma {:induction false} ReplayCounts(t: Tables, manifest: seq<PairId>, w: Uuid, n: nat)
    requires w in t.instances && ReplayLog(t, manifest, w, n).Some?
    ensures CountsMatch(t, ReplayLog(t, manifest, w, n).value)
    ensures ReplayLog(t, manifest, w, n).value.version == n
  {
    if n > 0 {
      ReplayCounts(t, manifest, w, n - 1);
      ReplayEventCounts(t, manifest, w, ReplayLog(t, manifest, w, n - 1).value, t.events[Slot(w, n)], n);
    }
  }
}
