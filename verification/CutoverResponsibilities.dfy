/** What migrating a pair's active responsibilities does to instances, visits, events and
    receipts, and to the recovery of the migrated instances. */
module CutoverResponsibilities {
  import opened Identifiers
  import opened Ledger
  import opened EventLog
  import opened Cutover

  ghost predicate ReceiptIdsFree(receipts: map<Uuid, Receipt>, command: Uuid, actor: Uuid, key: ReceiptKey) {
    command !in receipts && forall c :: c in receipts ==> !(receipts[c].principal == actor && receipts[c].key == key)
  }

  ghost predicate EventIdsFree(events: map<Slot, Event>, id: Uuid, command: Uuid) {
    forall s :: s in events ==> events[s].id != id && events[s].command != Some(command)
  }

  /** No derived id or idempotency key of the tuple is taken. */
  ghost predicate IdsFree(t: Tables, pair: PairId, index: nat, r: Responsibility, actor: Uuid) {
    && VisitId(index, r) !in t.visits
    && ReceiptIdsFree(t.receipts, CommandId(index, r), actor, KeyOf(pair, r))
    && EventIdsFree(t.events, EventId(index, r), CommandId(index, r))
  }

  /** What a tuple needs of the tables: a closed instance with an intact source visit, or an
      active one without open assistance. */
  ghost predicate TupleFits(t: Tables, pair: PairId, index: nat, r: Responsibility, actor: Uuid) {
    Passed(t, r) || (Active(t, r) && r.visit !in t.openAssistance && IdsFree(t, pair, index, r, actor))
  }

  ghost predicate Principals(t: Tables, pair: PairId, actor: Uuid) {
    actor in t.principals && pair.newPrincipal in t.principals
  }

  lemma ActiveInsertable(t: Tables, pair: PairId, index: nat, r: Responsibility)
    requires Sound(t) && AllExact(t) && Active(t, r) && pair.newPrincipal in t.principals
    ensures VisitInsertable(t, VisitId(index, r), NewVisit(t, pair, r)) <==> VisitId(index, r) !in t.visits
    ensures Slot(r.workflow, r.version + 1) !in t.events
  {
    hide IdsUnique, ReceiptsUnique, BindingsSound, EventsSound;
    assert Exact(t, r.workflow);
    assert t.visits[r.visit].workflow == r.workflow;
    assert forall w :: w in t.visits ==> !SamePlace(t.visits[w], NewVisit(t, pair, r));
  }

  /** The visit number, the node, the event slot and the keys never get in the way. */
  lemma OneAccepted(t: Tables, pair: PairId, index: nat, r: Responsibility, actor: Uuid)
    requires Sound(t) && AllExact(t) && Principals(t, pair, actor)
    ensures TupleAccepted(t, pair, index, r, actor) <==> TupleFits(t, pair, index, r, actor)
  {
    hide Sound, AllExact, Active, Passed, VisitInsertable, NewVisit;
    if Active(t, r) {
      ActiveInsertable(t, pair, index, r);
    }
  }

  /** A migration is one log-extending step plus its receipt. */
  lemma AcceptedFits(t: Tables, pair: PairId, index: nat, r: Responsibility, actor: Uuid)
    requires MigrationAccepted(t, pair, index, r, actor)
    ensures StepFits(t, r.workflow, VisitId(index, r), NewVisit(t, pair, r), NewEvent(t, pair, index, r, actor))
    ensures Slot(r.workflow, r.version + 1) !in t.events && CommandId(index, r) !in t.receipts && VisitId(index, r) !in t.visits
    ensures Current(t.instances[r.workflow]) == Projection(t.instances[r.workflow].context, Some(r.visit), r.version)
    ensures r.visit in t.visits && t.visits[r.visit].node == r.node
  {
  }

  lemma TupleKeepsLog(t: Tables, pair: PairId, index: nat, r: Responsibility, actor: Uuid)
    requires TupleAccepted(t, pair, index, r, actor) && Sound(t) && AllExact(t)
    ensures var u := TupleWritten(t, pair, index, r, actor); Sound(u) && AllExact(u)
  {
    hide Sound, AllExact, StepFits, NewVisit, NewEvent;
    if !Passed(t, r) {
      var v, e := NewVisit(t, pair, r), NewEvent(t, pair, index, r, actor);
      AcceptedFits(t, pair, index, r, actor);
      StepKeepsLog(t, r.workflow, VisitId(index, r), v, e);
      ReceiptKeepsLog(Stepped(t, r.workflow, VisitId(index, r), v, e), CommandId(index, r), NewReceipt(t, pair, index, r, actor));
    }
  }

  lemma TupleFrame(t: Tables, pair: PairId, index: nat, r: Responsibility, actor: Uuid)
    requires TupleAccepted(t, pair, index, r, actor)
    ensures var u := TupleWritten(t, pair, index, r, actor);
            && HistoryKept(t, u) && SameElsewhere(t, u) && u.instances.Keys == t.instances.Keys
            && var n := if Passed(t, r) then 0 else 1;
               |u.visits| == |t.visits| + n && |u.events| == |t.events| + n && |u.receipts| == |t.receipts| + n
  {
    hide MigrationAccepted, Passed, NewVisit, DataOf, StepFits;
    if !Passed(t, r) {
      AcceptedFits(t, pair, index, r, actor);
      var v, e := NewVisit(t, pair, r), NewEvent(t, pair, index, r, actor);
      StepFrame(t, r.workflow, VisitId(index, r), v, e);
      ReceiptFrame(Stepped(t, r.workflow, VisitId(index, r), v, e), CommandId(index, r), NewReceipt(t, pair, index, r, actor));
      HistoryKeptTransitive(t, Stepped(t, r.workflow, VisitId(index, r), v, e), TupleWritten(t, pair, index, r, actor));
    } else {
      HistoryKeptReflexive(t);
    }
  }

  lemma TupleUntouched(t: Tables, pair: PairId, index: nat, r: Responsibility, actor: Uuid, w: Uuid)
    requires TupleAccepted(t, pair, index, r, actor) && w != r.workflow
    ensures Untouched(t, TupleWritten(t, pair, index, r, actor), w)
  {
    hide MigrationAccepted, Passed, NewVisit, DataOf, StepFits, Untouched;
    if !Passed(t, r) {
      AcceptedFits(t, pair, index, r, actor);
      StepUntouched(t, r.workflow, VisitId(index, r), NewVisit(t, pair, r), NewEvent(t, pair, index, r, actor), w);
      ReceiptUntouched(Stepped(t, r.workflow, VisitId(index, r), NewVisit(t, pair, r), NewEvent(t, pair, index, r, actor)),
                       CommandId(index, r), NewReceipt(t, pair, index, r, actor), w);
      UntouchedTransitive(t, Stepped(t, r.workflow, VisitId(index, r), NewVisit(t, pair, r), NewEvent(t, pair, index, r, actor)),
                          TupleWritten(t, pair, index, r, actor), w);
    } else {
      UntouchedReflexive(t, w);
    }
  }

  /** What a tuple's state depends on: its own instance's rows and the nodes. */
  lemma UntouchedState(t: Tables, u: Tables, r: Responsibility)
    requires Untouched(t, u, r.workflow) && t.nodes == u.nodes && InstancesSound(t) && InstancesSound(u)
    ensures ResponsibilityState(t, r) == ResponsibilityState(u, r)
    ensures Passed(t, r) == Passed(u, r) && Active(t, r) == Active(u, r)
  {
  }

  /** Writing one tuple leaves the fitness of every other instance's tuple as it was. */
  lemma FitsPersists(t: Tables, pair: PairId, index: nat, done: Responsibility, r: Responsibility, actor: Uuid)
    requires TupleAccepted(t, pair, index, done, actor) && Sound(t) && AllExact(t) && done.workflow != r.workflow
    ensures var u := TupleWritten(t, pair, index, done, actor); TupleFits(u, pair, index, r, actor) <==> TupleFits(t, pair, index, r, actor)
  {
    hide Sound, AllExact, Passed, Active, Untouched;
    var u := TupleWritten(t, pair, index, done, actor);
    TupleKeepsLog(t, pair, index, done, actor);
    TupleUntouched(t, pair, index, done, actor, r.workflow);
    TupleFrame(t, pair, index, done, actor);
    SoundInstances(t);
    SoundInstances(u);
    UntouchedState(t, u, r);
    IdsPersist(t, pair, index, done, r, actor);
  }

  lemma SoundInstances(t: Tables)
    requires Sound(t)
    ensures InstancesSound(t)
  {
  }

  lemma IdsPersist(t: Tables, pair: PairId, index: nat, done: Responsibility, r: Responsibility, actor: Uuid)
    requires TupleAccepted(t, pair, index, done, actor) && done.workflow != r.workflow
    ensures var u := TupleWritten(t, pair, index, done, actor); IdsFree(u, pair, index, r, actor) <==> IdsFree(t, pair, index, r, actor)
  {
    hide MigrationAccepted, Passed, NewVisit, DataOf, StepFits, ReceiptIdsFree, EventIdsFree;
    if !Passed(t, done) {
      AcceptedFits(t, pair, index, done, actor);
      ReceiptIdsPersist(t.receipts, CommandId(index, done), NewReceipt(t, pair, index, done, actor), CommandId(index, r), actor, KeyOf(pair, r));
      EventIdsPersist(t.events, Slot(done.workflow, done.version + 1), NewEvent(t, pair, index, done, actor), EventId(index, r), CommandId(index, r));
    }
  }

  lemma ReceiptIdsPersist(receipts: map<Uuid, Receipt>, c: Uuid, r: Receipt, command: Uuid, actor: Uuid,
      key: ReceiptKey)
    requires c !in receipts && c != command && r.key != key
    ensures ReceiptIdsFree(receipts[c := r], command, actor, key) <==> ReceiptIdsFree(receipts, command, actor, key)
  {
    assert forall x :: x in receipts ==> x in receipts[c := r] && receipts[c := r][x] == receipts[x];
  }

  lemma EventIdsPersist(events: map<Slot, Event>, s: Slot, e: Event, id: Uuid, command: Uuid)
    requires s !in events && e.id != id && e.command != Some(command)
    ensures EventIdsFree(events[s := e], id, command) <==> EventIdsFree(events, id, command)
  {
    assert forall x :: x in events ==> x in events[s := e] && events[s := e][x] == events[x];
  }

  /** Every tuple is accepted in its turn exactly when all of them fit at the start. */
  lemma {:induction false} TuplesAcceptedExactly(t: Tables, pair: PairId, index: nat, rs: seq<Responsibility>,
      actor: Uuid)
    requires Sound(t) && AllExact(t) && Principals(t, pair, actor) && DistinctWorkflows(rs)
    ensures TuplesAccepted(t, pair, index, rs, actor) <==> forall r :: r in rs ==> TupleFits(t, pair, index, r, actor)
    decreases |rs|
  {
    hide Sound, AllExact, TupleAccepted, TupleFits, TupleWritten;
    if rs != [] {
      var r, rest := rs[0], rs[1..];
      assert rs == [r] + rest;
      OneAccepted(t, pair, index, r, actor);
      if TupleAccepted(t, pair, index, r, actor) {
        var u := TupleWritten(t, pair, index, r, actor);
        TupleKeepsLog(t, pair, index, r, actor);
        TupleFrame(t, pair, index, r, actor);
        TuplesAcceptedExactly(u, pair, index, rest, actor);
        forall x | x in rest ensures TupleFits(u, pair, index, x, actor) <==> TupleFits(t, pair, index, x, actor) {
          RestDiffers(rs, x);
          FitsPersists(t, pair, index, r, x, actor);
        }
      }
    }
  }

  lemma RestDiffers(rs: seq<Responsibility>, x: Responsibility)
    requires DistinctWorkflows(rs) && rs != [] && x in rs[1..]
    ensures x.workflow != rs[0].workflow && DistinctWorkflows(rs[1..])
  {
    var k :| 0 <= k < |rs[1..]| && rs[1..][k] == x;
    assert rs[k + 1] == x;
  }

  /** The loop as a whole: schema, exact logs and history are kept; exactly the migrated tuples
      add a visit, an event and a receipt each. */
  lemma {:induction false} TuplesFrame(t: Tables, pair: PairId, index: nat, rs: seq<Responsibility>, actor: Uuid)
    requires Sound(t) && AllExact(t) && TuplesAccepted(t, pair, index, rs, actor)
    ensures var u := TuplesWritten(t, pair, index, rs, actor);
            && Sound(u) && AllExact(u) && HistoryKept(t, u) && SameElsewhere(t, u) && u.instances.Keys == t.instances.Keys
            && var n := MigratedCount(t, pair, index, rs, actor);
               |u.visits| == |t.visits| + n && |u.events| == |t.events| + n && |u.receipts| == |t.receipts| + n
    decreases |rs|
  {
    hide Sound, AllExact, HistoryKept, TupleAccepted, TupleWritten, Passed;
    if rs == [] {
      HistoryKeptReflexive(t);
    } else {
      var u := TupleWritten(t, pair, index, rs[0], actor);
      TupleKeepsLog(t, pair, index, rs[0], actor);
      TupleFrame(t, pair, index, rs[0], actor);
      TuplesFrame(u, pair, index, rs[1..], actor);
      HistoryKeptTransitive(t, u, TuplesWritten(t, pair, index, rs, actor));
    }
  }

  lemma {:induction false} OthersUntouched(t: Tables, pair: PairId, index: nat, rs: seq<Responsibility>, actor: Uuid,
      w: Uuid)
    requires TuplesAccepted(t, pair, index, rs, actor) && forall r :: r in rs ==> r.workflow != w
    ensures Untouched(t, TuplesWritten(t, pair, index, rs, actor), w)
    decreases |rs|
  {
    hide TupleAccepted, TupleWritten, Untouched;
    if rs == [] {
      UntouchedReflexive(t, w);
    } else {
      var u := TupleWritten(t, pair, index, rs[0], actor);
      TupleUntouched(t, pair, index, rs[0], actor, w);
      OthersUntouched(u, pair, index, rs[1..], actor, w);
      UntouchedTransitive(t, u, TuplesWritten(t, pair, index, rs, actor), w);
    }
  }

  /** A written tuple shows its end state. */
  lemma TupleReady(t: Tables, pair: PairId, index: nat, r: Responsibility, actor: Uuid)
    requires TupleAccepted(t, pair, index, r, actor) && Sound(t) && r.newPrincipal == pair.newPrincipal
    ensures ResponsibilityState(TupleWritten(t, pair, index, r, actor), r) in {Ready, Skip}
  {
  }

  /** Every tuple shows its end state after the loop. */
  lemma {:induction false} TuplesReady(t: Tables, pair: PairId, index: nat, rs: seq<Responsibility>, actor: Uuid,
      r: Responsibility)
    requires Sound(t) && AllExact(t) && TuplesAccepted(t, pair, index, rs, actor) && DistinctWorkflows(rs)
    requires r in rs && r.newPrincipal == pair.newPrincipal
    ensures ResponsibilityState(TuplesWritten(t, pair, index, rs, actor), r) in {Ready, Skip}
    decreases |rs|
  {
    hide Sound, AllExact, TupleAccepted, TupleWritten, Passed, ResponsibilityState, Untouched;
    var u, rest := TupleWritten(t, pair, index, rs[0], actor), rs[1..];
    assert rs == [rs[0]] + rest;
    TupleKeepsLog(t, pair, index, rs[0], actor);
    if r in rest {
      RestDiffers(rs, r);
      TuplesReady(u, pair, index, rest, actor, r);
    } else {
      TupleReady(t, pair, index, r, actor);
      forall x | x in rest ensures x.workflow != r.workflow {
        RestDiffers(rs, x);
      }
      OthersUntouched(u, pair, index, rest, actor, r.workflow);
      TuplesFrame(u, pair, index, rest, actor);
      SoundInstances(u);
      SoundInstances(TuplesWritten(u, pair, index, rest, actor));
      UntouchedState(u, TuplesWritten(u, pair, index, rest, actor), r);
    }
  }

  /** The only receipts the loop adds are the actor's own instance receipts. */
  lemma {:induction false} AddedReceipts(t: Tables, pair: PairId, index: nat, rs: seq<Responsibility>, actor: Uuid,
      c: Uuid)
    requires TuplesAccepted(t, pair, index, rs, actor)
    requires c in TuplesWritten(t, pair, index, rs, actor).receipts && c !in t.receipts
    ensures c.Derived? && c.tag.CommandOf? && c.tag.index == index
    ensures TuplesWritten(t, pair, index, rs, actor).receipts[c].key.InstanceKey?
    ensures TuplesWritten(t, pair, index, rs, actor).receipts[c].key.migration == MigrationOf(pair)
    decreases |rs|
  {
    if rs != [] {
      var u := TupleWritten(t, pair, index, rs[0], actor);
      if c in u.receipts {
        ReceiptsKept(u, pair, index, rs[1..], actor, c);
      } else {
        AddedReceipts(u, pair, index, rs[1..], actor, c);
      }
    }
  }

  lemma {:induction false} ReceiptsKept(t: Tables, pair: PairId, index: nat, rs: seq<Responsibility>, actor: Uuid,
      c: Uuid)
    requires TuplesAccepted(t, pair, index, rs, actor) && c in t.receipts
    ensures c in TuplesWritten(t, pair, index, rs, actor).receipts && TuplesWritten(t, pair, index, rs, actor).receipts[c] == t.receipts[c]
    decreases |rs|
  {
    if rs != [] {
      ReceiptsKept(TupleWritten(t, pair, index, rs[0], actor), pair, index, rs[1..], actor, c);
    }
  }

  /** Event, receipt and projection tell one story: the event's two snapshots are the instance
      before and after, and the receipt's response names that event and those snapshots. */
  lemma MigrationRecorded(t: Tables, pair: PairId, index: nat, r: Responsibility, actor: Uuid)
    requires MigrationAccepted(t, pair, index, r, actor)
    ensures var u := Migrated(t, pair, index, r, actor);
            var i := t.instances[r.workflow];
            && u.instances[r.workflow] == i.(visit := Some(VisitId(index, r)), version := i.version + 1)
            && VisitId(index, r) in u.visits && u.visits[VisitId(index, r)].node == t.visits[i.visit.value].node
            && u.visits[VisitId(index, r)].assignee == Some(pair.newPrincipal)
            && Slot(r.workflow, i.version + 1) in u.events
            && var e := u.events[Slot(r.workflow, i.version + 1)];
               && e.source == i.visit && e.target == u.instances[r.workflow].visit
               && e.context == i.context && e.actor == actor && e.kind.SuccessorMigration?
               && e.fromNode == e.toNode == Some(t.visits[i.visit.value].node)
               && e.kind.migration.before == SnapshotAt(t, r.workflow, Current(i))
               && e.kind.migration.after == SnapshotAt(u, r.workflow, Current(u.instances[r.workflow]))
               && e.command.Some? && e.command.value in u.receipts
               && u.receipts[e.command.value].principal == actor
               && u.receipts[e.command.value].key == InstanceKey(MigrationId(pair.oldPrincipal, pair.newPrincipal), r.workflow)
               && u.receipts[e.command.value].request == InstanceRequest(e.kind.migration.migration, index, r.workflow, actor)
               && u.receipts[e.command.value].response
                  == Some((200, InstanceResponse(e.command.value, e.id, e.kind.migration.before, e.kind.migration.after)))
  {
    hide NextNumber, VisitInsertable;
  }
}
