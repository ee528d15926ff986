/** The ordinary transition command, as far as it touches an instance's log: it is what happens
    between the runs of the operators. */
module Transitions {
  import opened Identifiers
  import opened Ledger
  import opened EventLog
  import opened Store
  import Cutover
  import Recovery = CutoverRecovery

  const COMMAND_TYPE := "EXECUTE_WORKFLOW_TRANSITION"

  /** One command with the ids it draws.  `permitted` says that caller, definition, submission and
      return budget pass; the context revision is not replaced. */
  datatype Move = Move(
    workflow: Uuid, node: Uuid, transition: Uuid, effect: string, submission: Option<Uuid>, assignee: Option<Uuid>,
    actor: Uuid, key: string, request: Document, response: Document, command: Uuid, visit: Uuid, event: Uuid, permitted: bool)

  function MoveVisit(t: Tables, m: Move): Visit {
    Visit(m.workflow, m.node, Cutover.NextNumber(t, m.workflow, m.node), m.assignee, Some(m.transition))
  }

  /** The instance stands at a visit of its own. */
  predicate Standing(t: Tables, w: Uuid) {
    && w in t.instances && t.instances[w].visit.Some? && t.instances[w].visit.value in t.visits
    && t.visits[t.instances[w].visit.value].workflow == w
  }

  function MoveEvent(t: Tables, m: Move): Event
    requires Standing(t, m.workflow)
  {
    var i := t.instances[m.workflow];
    Event(m.event, Some(m.command), Transition, true, i.visit, Some(m.visit), i.context, m.submission, Some(m.effect),
          m.actor, Some(t.visits[i.visit.value].node), Some(m.node), i.version, i.version + 1)
  }

  function MoveReceipt(m: Move): Receipt {
    Receipt(m.actor, ClientKey(m.key), COMMAND_TYPE, m.request, Some((200, m.response)))
  }

  /** Every check passes and every statement is accepted. */
  predicate MoveAccepted(t: Tables, m: Move) {
    && m.permitted && Standing(t, m.workflow)
    && !t.instances[m.workflow].cancelled && t.instances[m.workflow].visit.value !in t.openAssistance
    && ReceiptInsertable(t, m.command, m.actor, ClientKey(m.key))
    && VisitInsertable(t, m.visit, MoveVisit(t, m))
    && Slot(m.workflow, t.instances[m.workflow].version + 1) !in t.events
    && (forall s :: s in t.events ==> t.events[s].id != m.event && t.events[s].command != Some(m.command))
  }

  function Moved(t: Tables, m: Move): Tables
    requires Standing(t, m.workflow)
  {
    Stepped(t, m.workflow, m.visit, MoveVisit(t, m), MoveEvent(t, m)).(receipts := t.receipts[m.command := MoveReceipt(m)])
  }

  function MoveResult(t: Tables, m: Move, ack: CommitAck): Tables {
    if MoveAccepted(t, m) && !ack.LostNotApplied? then Moved(t, m) else t
  }

  lemma MoveFits(t: Tables, m: Move)
    requires MoveAccepted(t, m)
    ensures Standing(t, m.workflow)
    ensures StepFits(t, m.workflow, m.visit, MoveVisit(t, m), MoveEvent(t, m))
    ensures Slot(m.workflow, t.instances[m.workflow].version + 1) !in t.events && m.command !in t.receipts
  {
    hide Cutover.NextNumber;
  }

  /** When a transition takes effect, in a database with sound tables and exact logs: it is permitted,
      the instance is not cancelled, its visit has no open assistance, the target node belongs to
      its definition and takes the assignee, and key and ids are fresh.  Its visit number and its
      event slot never get in the way. */
  lemma MovesExactly(t: Tables, m: Move, ack: CommitAck)
    requires Sound(t) && AllExact(t)
    ensures MoveResult(t, m, ack) != t
       <==> && !ack.LostNotApplied? && m.permitted && m.workflow in t.instances && t.instances[m.workflow].visit != None
            && !t.instances[m.workflow].cancelled && t.instances[m.workflow].visit.value !in t.openAssistance
            && m.node in t.nodes && t.nodes[m.node].definitionVersion == t.instances[m.workflow].definitionVersion
            && (t.nodes[m.node].kind == "TERMINAL" <==> m.assignee == None) && (m.assignee != None ==> m.assignee.value in t.principals)
            && m.actor in t.principals && m.visit !in t.visits && m.command !in t.receipts
            && (forall c :: c in t.receipts ==> t.receipts[c].principal != m.actor || t.receipts[c].key != ClientKey(m.key))
            && (forall s :: s in t.events ==> t.events[s].id != m.event && t.events[s].command != Some(m.command))
  {
    hide AllExact, EventsSound, EventsUnique, ReceiptsUnique, BindingsSound, Cutover.NextNumber;
    if m.workflow in t.instances {
      SlotFree(t, m.workflow);
    }
    assert MoveAccepted(t, m) ==> m.visit in Moved(t, m).visits;
    assert forall w :: w in t.visits ==> !SamePlace(t.visits[w], MoveVisit(t, m));
  }

  /** What it writes: a visit under the next free number of its node, an event for it, the
      instance's new place, and a receipt; and nothing else. */
  lemma MoveWrites(t: Tables, m: Move)
    requires MoveAccepted(t, m)
    ensures var u, i := Moved(t, m), t.instances[m.workflow];
            var numbers := set v | v in t.visits && t.visits[v].workflow == m.workflow && t.visits[v].node == m.node :: t.visits[v].number;
            && u == t.(visits := u.visits, events := u.events, instances := u.instances, receipts := u.receipts)
            && u.instances == t.instances[m.workflow := i.(visit := Some(m.visit), version := i.version + 1)]
            && m.visit in u.visits && u.visits == t.visits[m.visit := u.visits[m.visit]]
            && u.visits[m.visit].(number := 0) == Visit(m.workflow, m.node, 0, m.assignee, Some(m.transition))
            && (numbers == {} ==> u.visits[m.visit].number == 1)
            && (numbers != {} ==> u.visits[m.visit].number - 1 in numbers && forall n :: n in numbers ==> n < u.visits[m.visit].number)
            && u.events == t.events[Slot(m.workflow, i.version + 1) :=
                             Event(m.event, Some(m.command), Transition, true, i.visit, Some(m.visit), i.context, m.submission, Some(m.effect),
                                   m.actor, Some(t.visits[i.visit.value].node), Some(m.node), i.version, i.version + 1)]
            && u.receipts == t.receipts[m.command :=
                               Receipt(m.actor, ClientKey(m.key), "EXECUTE_WORKFLOW_TRANSITION", m.request, Some((200, m.response)))]
  {
    var numbers := set v | v in t.visits && t.visits[v].workflow == m.workflow && t.visits[v].node == m.node :: t.visits[v].number;
    assert numbers == Cutover.Numbers(t, m.workflow, m.node);
  }

  lemma SlotFree(t: Tables, w: Uuid)
    requires AllExact(t) && w in t.instances
    ensures Slot(w, t.instances[w].version + 1) !in t.events
  {
    assert Exact(t, w);
  }

  /** A transition keeps the schema, the exact logs and the history, like an operator's step. */
  lemma MoveKeepsLog(t: Tables, m: Move, ack: CommitAck)
    requires Sound(t) && AllExact(t)
    ensures var u := MoveResult(t, m, ack); Sound(u) && AllExact(u) && HistoryKept(t, u) && u.instances.Keys == t.instances.Keys
  {
    hide Sound, AllExact, HistoryKept, StepFits, MoveVisit, MoveEvent;
    HistoryKeptReflexive(t);
    if MoveAccepted(t, m) {
      MoveFits(t, m);
      var v, e := MoveVisit(t, m), MoveEvent(t, m);
      var u := Stepped(t, m.workflow, m.visit, v, e);
      EventColumns(t, m);
      StepKeepsLog(t, m.workflow, m.visit, v, e);
      StepFrame(t, m.workflow, m.visit, v, e);
      ReceiptKeepsLog(u, m.command, MoveReceipt(m));
      ReceiptFrame(u, m.command, MoveReceipt(m));
      HistoryKeptTransitive(t, u, Moved(t, m));
    }
  }

  lemma EventColumns(t: Tables, m: Move)
    requires Standing(t, m.workflow)
    ensures var e := MoveEvent(t, m); e.newVersion == t.instances[m.workflow].version + 1 && e.kind == Transition
  {
  }

  /** MAX + 1 is the number the replay counts up to, also for a node never visited before. */
  lemma NextIsCounted(t: Tables, st: Replay, w: Uuid, node: Uuid)
    requires CountsMatch(t, st) && forall v :: v in st.visits <==> v in t.visits && t.visits[v].workflow == w
    ensures Cutover.NextNumber(t, w, node) == Count(st, node) + 1
  {
    if visit :| visit in st.visits && t.visits[visit].node == node {
      Recovery.NumberAgrees(t, st, w, visit);
    } else {
      assert node !in st.counts;
      assert Cutover.Numbers(t, w, node) == {};
    }
  }

  lemma MoveAlike(t: Tables, m: Move)
    requires MoveAccepted(t, m)
    ensures var n := t.instances[m.workflow].version; ReplaysAlike(t, Moved(t, m), m.workflow, if n >= 0 then n else 0)
  {
    hide StepFits, MoveVisit;
    MoveFits(t, m);
  }

  /** The replay accepts the event a transition appends. */
  lemma MoveReplayed(t: Tables, manifest: seq<PairId>, m: Move)
    requires MoveAccepted(t, m) && Rebuildable(t, manifest, m.workflow)
    ensures var n := t.instances[m.workflow].version;
            n >= 1 && var st := ReplayLog(t, manifest, m.workflow, n).value;
            ReplayLog(Moved(t, m), manifest, m.workflow, n + 1)
            == Some(Replay(st.contexts, st.visits + {m.visit}, st.counts[m.node := Count(st, m.node) + 1], st.context, Some(m.visit), n + 1))
  {
    hide ReplayLog, CountsMatch, Cutover.NextNumber, StepFits, ReplaysAlike;
    var w, n, u, e := m.workflow, t.instances[m.workflow].version, Moved(t, m), MoveEvent(t, m);
    var st := ReplayLog(t, manifest, w, n).value;
    ReplayCounts(t, manifest, w, n);
    NextIsCounted(t, st, w, m.node);
    MoveFits(t, m);
    MoveAlike(t, m);
    ReplayStep(t, u, manifest, w, n, e);
    assert u.visits[m.visit] == MoveVisit(t, m) && u.visits[e.source.value] == t.visits[e.source.value];
    assert NodeColumns(u, e, e.source.value, m.visit);
  }

  /** And so no transition takes an instance out of recovery's reach. */
  lemma MoveRebuildable(t: Tables, manifest: seq<PairId>, m: Move, ack: CommitAck, w: Uuid)
    requires w in t.instances && Rebuildable(t, manifest, w)
    ensures var u := MoveResult(t, m, ack); w in u.instances && Rebuildable(u, manifest, w)
  {
    hide ReplayLog, Cutover.NextNumber, StepFits;
    if MoveAccepted(t, m) && !ack.LostNotApplied? {
      var u := Moved(t, m);
      MoveFits(t, m);
      if w == m.workflow {
        MoveReplayed(t, manifest, m);
        assert Numbered(u, w);
        assert forall v :: v in u.visits && u.visits[v].workflow == w <==> v == m.visit || (v in t.visits && t.visits[v].workflow == w);
      } else {
        MoveUntouched(t, m, w);
        UntouchedRebuildable(t, u, manifest, w);
      }
    }
  }

  lemma MoveUntouched(t: Tables, m: Move, w: Uuid)
    requires MoveAccepted(t, m) && w != m.workflow
    ensures Untouched(t, Moved(t, m), w)
  {
    hide StepFits, Untouched, MoveVisit, MoveEvent;
    MoveFits(t, m);
    var x := Stepped(t, m.workflow, m.visit, MoveVisit(t, m), MoveEvent(t, m));
    StepUntouched(t, m.workflow, m.visit, MoveVisit(t, m), MoveEvent(t, m), w);
    ReceiptUntouched(x, m.command, MoveReceipt(m), w);
    UntouchedTransitive(t, x, Moved(t, m), w);
  }
}
