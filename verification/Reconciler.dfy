/** One reconciler pass as the program runs it: query a batch, then claim, deliver and settle row
    by row, while other workers, users and operators act at every point in between.  Every pass
    is a run of the protocol, so it inherits the protocol's safety. */
module Reconciler {
  import opened Identifiers
  import opened Outbox

  // ---------------------------------------------------------------------------
  // The others
  // ---------------------------------------------------------------------------

  /** A step of worker `w` itself. */
  predicate Acts(step: Step, w: nat) {
    !step.Enqueue? && !step.Tick? && !step.Requeue? && step.w == w
  }

  /** What others do of the given steps: those that are not `w`'s and are possible in their turn. */
  function Around(active: set<Kind>, s: State, w: nat, env: seq<Step>): State
    decreases |env|
  {
    if env == [] then s
    else Around(active, if !Acts(env[0], w) && Enabled(active, s, env[0]) then Next(s, env[0]) else s, w, env[1..])
  }

  function StepsAround(active: set<Kind>, s: State, w: nat, env: seq<Step>): seq<Step>
    decreases |env|
  {
    if env == [] then []
    else if !Acts(env[0], w) && Enabled(active, s, env[0]) then [env[0]] + StepsAround(active, Next(s, env[0]), w, env[1..])
    else StepsAround(active, s, w, env[1..])
  }

  // ---------------------------------------------------------------------------
  // Runs of the protocol
  // ---------------------------------------------------------------------------

  ghost predicate Runs(active: set<Kind>, s: State, steps: seq<Step>)
    decreases |steps|
  {
    steps == [] || (Enabled(active, s, steps[0]) && Runs(active, Next(s, steps[0]), steps[1..]))
  }

  ghost function After(s: State, steps: seq<Step>): State
    decreases |steps|
  {
    if steps == [] then s else After(Next(s, steps[0]), steps[1..])
  }

  /** How many rows `w` settled as delivered. */
  ghost function Deliveries(s: State, w: nat, steps: seq<Step>): nat
    decreases |steps|
  {
    if steps == [] then 0
    else (if steps[0] == Settle(w) && PhaseOf(s, w).Answering? && Success(PhaseOf(s, w).answer) then 1 else 0)
         + Deliveries(Next(s, steps[0]), w, steps[1..])
  }

  /** The steps lead from `start` to `s`, and `n` of them are deliveries by `w`. */
  ghost predicate Reached(active: set<Kind>, w: nat, start: State, steps: seq<Step>, s: State, n: nat) {
    Runs(active, start, steps) && After(start, steps) == s && Deliveries(start, w, steps) == n
  }

  lemma {:induction false} RunsAppend(active: set<Kind>, w: nat, s: State, a: seq<Step>, b: seq<Step>)
    requires Runs(active, s, a) && Runs(active, After(s, a), b)
    ensures Runs(active, s, a + b) && After(s, a + b) == After(After(s, a), b)
    ensures Deliveries(s, w, a + b) == Deliveries(s, w, a) + Deliveries(After(s, a), w, b)
    decreases |a|
  {
    hide Enabled, Next;
    if a == [] {
      assert a + b == b;
    } else {
      assert (a + b)[1..] == a[1..] + b && (a + b)[0] == a[0];
      RunsAppend(active, w, Next(s, a[0]), a[1..], b);
    }
  }

  lemma OneMore(active: set<Kind>, w: nat, start: State, steps: seq<Step>, s: State, n: nat, step: Step)
    requires Reached(active, w, start, steps, s, n) && Enabled(active, s, step)
    ensures Reached(active, w, start, steps + [step], Next(s, step),
                    n + if step == Settle(w) && PhaseOf(s, w).Answering? && Success(PhaseOf(s, w).answer) then 1 else 0)
  {
    hide Enabled, Next;
    assert [step][1..] == [];
    RunsAppend(active, w, start, steps, [step]);
  }

  lemma {:induction false} AroundRuns(active: set<Kind>, s: State, w: nat, env: seq<Step>)
    ensures var steps := StepsAround(active, s, w, env);
            Runs(active, s, steps) && After(s, steps) == Around(active, s, w, env) && Deliveries(s, w, steps) == 0
    decreases |env|
  {
    hide Enabled, Next;
    if env != [] {
      if !Acts(env[0], w) && Enabled(active, s, env[0]) {
        AroundRuns(active, Next(s, env[0]), w, env[1..]);
        var rest := StepsAround(active, Next(s, env[0]), w, env[1..]);
        assert ([env[0]] + rest)[1..] == rest;
      } else {
        AroundRuns(active, s, w, env[1..]);
      }
    }
  }

  /** Others are everybody else: users, operators, the clock, and every other worker. */
  lemma AnyoneElseActs(active: set<Kind>, s: State, w: nat, step: Step)
    ensures Around(active, s, w, [step])
         == if Enabled(active, s, step) && (step.Enqueue? || step.Tick? || step.Requeue? || step.w != w) then Next(s, step) else s
  {
    hide Enabled, Next;
    assert [step][1..] == [];
  }

  // ---------------------------------------------------------------------------
  // What holds at every point
  // ---------------------------------------------------------------------------

  /** `order` stands for (created_at, outbox_id), whose second part is the primary key. */
  ghost predicate OrdersDistinct(s: State) {
    forall a, b :: a in s.rows && b in s.rows && s.rows[a].order == s.rows[b].order ==> a == b
  }

  ghost predicate Fine(active: set<Kind>, s: State) {
    Safe(active, s) && OrdersDistinct(s)
  }

  lemma StepFine(active: set<Kind>, s: State, step: Step)
    requires Fine(active, s) && Enabled(active, s, step)
    ensures Fine(active, Next(s, step))
  {
    hide Safe, Classify, Backoff, BatchOk;
    StepSafe(active, s, step);
  }

  predicate HasRow(p: Phase) {
    p.Holding? || p.Answering?
  }

  /** Nobody else touches a held row. */
  lemma HeldUnchanged(active: set<Kind>, s: State, w: nat, step: Step)
    requires Fine(active, s) && Enabled(active, s, step) && !Acts(step, w) && HasRow(PhaseOf(s, w))
    ensures var id := PhaseOf(s, w).id; id in s.rows && id in Next(s, step).rows && Next(s, step).rows[id] == s.rows[id]
  {
    hide Classify, Backoff, BatchOk;
    assert Holds(s.workers[w], PhaseOf(s, w).id) && Locked(s, PhaseOf(s, w).id);
    if step.Settle? {
      assert !Holds(s.workers[step.w], PhaseOf(s, w).id);
    }
  }

  lemma ForeignStep(active: set<Kind>, s: State, w: nat, step: Step)
    requires Fine(active, s) && Enabled(active, s, step) && !Acts(step, w)
    ensures var u := Next(s, step);
            && PhaseOf(u, w) == PhaseOf(s, w)
            && (forall id :: id in s.rows ==> id in u.rows && SameIdentity(s.rows[id], u.rows[id]))
  {
    hide Classify, Backoff, BatchOk, Enqueuable;
    forall id | id in s.rows ensures id in Next(s, step).rows && SameIdentity(s.rows[id], Next(s, step).rows[id]) {
      StepFreezes(active, s, step, id);
    }
  }

  /** Whatever others do: the worker stays where it is, no row disappears, and the row it holds
      does not change.  The row lock is the lease. */
  lemma {:induction false} AroundKeeps(active: set<Kind>, s: State, w: nat, env: seq<Step>)
    requires Fine(active, s)
    ensures var u := Around(active, s, w, env);
            && Fine(active, u) && PhaseOf(u, w) == PhaseOf(s, w)
            && (HasRow(PhaseOf(s, w)) ==>
                  PhaseOf(s, w).id in s.rows && PhaseOf(s, w).id in u.rows && u.rows[PhaseOf(s, w).id] == s.rows[PhaseOf(s, w).id])
            && (forall id :: id in s.rows ==> id in u.rows && SameIdentity(s.rows[id], u.rows[id]))
    decreases |env|
  {
    hide Enabled, Next, Fine;
    if HasRow(PhaseOf(s, w)) {
      HeldRow(active, s, w);
    }
    if env != [] {
      if !Acts(env[0], w) && Enabled(active, s, env[0]) {
        ForeignStep(active, s, w, env[0]);
        if HasRow(PhaseOf(s, w)) {
          HeldUnchanged(active, s, w, env[0]);
        }
        StepFine(active, s, env[0]);
        AroundKeeps(active, Next(s, env[0]), w, env[1..]);
      } else {
        AroundKeeps(active, s, w, env[1..]);
      }
    }
  }

  lemma HeldRow(active: set<Kind>, s: State, w: nat)
    requires Fine(active, s) && HasRow(PhaseOf(s, w))
    ensures PhaseOf(s, w).id in s.rows && Open(s.rows[PhaseOf(s, w).id]) && s.rows[PhaseOf(s, w).id].kind == PhaseOf(s, w).kind
  {
  }

  // ---------------------------------------------------------------------------
  // The pass
  // ---------------------------------------------------------------------------

  /** How a settlement ends: committed, committed with a lost acknowledgement, or not committed. */
  datatype Fate = Heard | AppliedUnheard | NotApplied

  /** What meets one candidate: the others before the claim, before the request and before the
      settlement; whether its thread resolves; the answer; and the settlement's fate. */
  datatype Script = Script(before: seq<Step>, during: seq<Step>, after: seq<Step>, resolved: bool, answer: Answer, fate: Fate)

  /** What meets one channel: the others before its batch query, whether the query works, and the
      candidates' scripts in order. */
  datatype Channel = Channel(before: seq<Step>, queried: bool, scripts: seq<Script>)

  const CALM := Script([], [], [], true, NoAnswer, Heard)

  function ScriptAt(scripts: seq<Script>, i: nat): Script {
    if i < |scripts| then scripts[i] else CALM
  }

  ghost predicate AllHeard(scripts: seq<Script>) {
    forall k :: 0 <= k < |scripts| ==> !scripts[k].fate.AppliedUnheard?
  }

  /** claim_row gets the row: it is still due and nobody holds it. */
  predicate Claimable(s: State, id: nat, kind: Kind) {
    Due(s, id, kind) && !Locked(s, id)
  }

  method Oldest(rows: map<nat, Row>, ids: set<nat>) returns (oldest: nat)
    requires ids != {} && ids <= rows.Keys
    ensures oldest in ids && forall id :: id in ids ==> rows[oldest].order <= rows[id].order
  {
    oldest :| oldest in ids;
    var left := ids - {oldest};
    while left != {}
      invariant left <= ids && oldest in ids
      invariant forall id :: id in ids && id !in left ==> rows[oldest].order <= rows[id].order
      decreases left
    {
      var id :| id in left;
      if rows[id].order < rows[oldest].order {
        oldest := id;
      }
      left := left - {id};
    }
  }

  /** One candidate: the state when its turn is over, and whether the worker counts a delivery. */
  function Served(active: set<Kind>, s: State, w: nat, x: Script): (State, bool) {
    var found, p := Around(active, s, w, x.before), PhaseOf(s, w);
    if !p.Draining? || p.todo == [] then (s, false)
    else if p.kind == FORUM_EVENT && !x.resolved then
      (Next(found, if Locked(found, p.todo[0]) || x.fate.NotApplied? then Skip(w) else PrepareFailed(w)), false)
    else if !Claimable(found, p.todo[0], p.kind) then (Next(found, Skip(w)), false)
    else
      var held := Around(active, Next(found, Step.Claim(w)), w, x.during);
      var answered := Around(active, Next(held, Step.Deliver(w, x.answer)), w, x.after);
      if x.fate.NotApplied? then (Next(answered, Lose(w)), false)
      else (Next(answered, Step.Settle(w)), Success(x.answer) && x.fate.Heard?)
  }

  /** `count` candidates, from the `i`-th script on. */
  function Drained(active: set<Kind>, s: State, w: nat, scripts: seq<Script>, i: nat, count: nat): (State, nat)
    decreases count
  {
    if count == 0 then (s, 0)
    else
      var first := Served(active, s, w, ScriptAt(scripts, i));
      var rest := Drained(active, first.0, w, scripts, i + 1, count - 1);
      (rest.0, (if first.1 then 1 else 0) + rest.1)
  }

  /** Every candidate meets its own script, in order; those beyond the scripts meet a calm world whose
      requests get no answer. */
  lemma ScriptsInOrder(active: set<Kind>, s: State, w: nat, scripts: seq<Script>, i: nat, count: nat)
    requires count > 0
    ensures var first := Served(active, s, w, if i < |scripts| then scripts[i] else Script([], [], [], true, NoAnswer, Heard));
            var rest := Drained(active, first.0, w, scripts, i + 1, count - 1);
            Drained(active, s, w, scripts, i, count) == (rest.0, rest.1 + if first.1 then 1 else 0)
  {
    hide Served;
  }

  /** The batch of a state; see BatchUnique. */
  ghost function BatchOf(s: State, kind: Kind): seq<nat> {
    if exists ids :: BatchOk(s, kind, ids) then
      var ids :| BatchOk(s, kind, ids);
      ids
    else []
  }

  ghost function DrainedChannel(active: set<Kind>, s: State, w: nat, kind: Kind, c: Channel): (State, nat) {
    var found := Around(active, s, w, c.before);
    if !c.queried then (found, 0)
    else Drained(active, Next(found, Batch(w, kind, BatchOf(found, kind))), w, c.scripts, 0, |BatchOf(found, kind)|)
  }

  /** One channel of a pass, after what the pass delivered before. */
  ghost function Passed(active: set<Kind>, before: (State, nat), w: nat, kind: Kind, c: Channel): (State, nat) {
    if kind !in active then before
    else var r := DrainedChannel(active, before.0, w, kind, c); (r.0, before.1 + r.1)
  }

  /** The batch query has one answer: eligibility, order and limit leave no choice. */
  lemma BatchUnique(s: State, kind: Kind, a: seq<nat>, b: seq<nat>)
    requires OrdersDistinct(s) && BatchOk(s, kind, a) && BatchOk(s, kind, b)
    ensures a == b
  {
    hide Eligible;
    BatchRows(s, kind, a);
    BatchRows(s, kind, b);
    var n := if |a| <= |b| then |a| else |b|;
    SamePrefix(s, kind, a, b, n);
    if |a| <= |b| {
      NotLonger(s, kind, a, b, n);
    } else {
      NotLonger(s, kind, b, a, n);
    }
    assert a[..n] == a && b[..n] == b;
  }

  lemma NotLonger(s: State, kind: Kind, a: seq<nat>, b: seq<nat>, n: nat)
    requires BatchOk(s, kind, a) && BatchOk(s, kind, b) && n == |a| <= |b| && a[..n] == b[..n]
    ensures |b| == n
  {
    hide Eligible;
    BatchRows(s, kind, b);
    if n < |b| {
      assert Eligible(s, b[n], kind);
      forall j | 0 <= j < n ensures a[j] != b[n] {
        assert a[j] == a[..n][j] == b[..n][j] == b[j];
      }
    }
  }

  lemma BatchRows(s: State, kind: Kind, ids: seq<nat>)
    requires BatchOk(s, kind, ids)
    ensures forall k :: 0 <= k < |ids| ==> ids[k] in s.rows
    ensures forall j, k :: 0 <= j < |ids| && 0 <= k < |ids| && ids[j] == ids[k] ==> j == k
  {
    assert forall k :: 0 <= k < |ids| ==> Eligible(s, ids[k], kind);
  }

  lemma {:induction false} SamePrefix(s: State, kind: Kind, a: seq<nat>, b: seq<nat>, n: nat)
    requires OrdersDistinct(s) && BatchOk(s, kind, a) && BatchOk(s, kind, b) && n <= |a| && n <= |b|
    ensures a[..n] == b[..n]
  {
    hide Eligible;
    if n > 0 {
      SamePrefix(s, kind, a, b, n - 1);
      BatchRows(s, kind, a);
      BatchRows(s, kind, b);
      NotEarlier(s, kind, a, b, n - 1);
      NotEarlier(s, kind, b, a, n - 1);
      assert a[..n] == a[..n - 1] + [a[n - 1]] && b[..n] == b[..n - 1] + [b[n - 1]];
    }
  }

  lemma NotEarlier(s: State, kind: Kind, a: seq<nat>, b: seq<nat>, k: nat)
    requires BatchOk(s, kind, a) && BatchOk(s, kind, b) && k < |a| && k < |b| && a[..k] == b[..k]
    requires a[k] in s.rows && b[k] in s.rows
    ensures s.rows[b[k]].order <= s.rows[a[k]].order
  {
    hide Eligible;
    if s.rows[a[k]].order < s.rows[b[k]].order {
      BatchRows(s, kind, a);
      BatchRows(s, kind, b);
      forall j | 0 <= j < |b| ensures b[j] != a[k] {
        if j < k {
          assert a[j] == a[..k][j] == b[..k][j] == b[j];
        }
      }
    }
  }

  /** `ids` are the oldest of the eligible rows, in order, and `left` are the others. */
  ghost predicate Chosen(s: State, kind: Kind, ids: seq<nat>, left: set<nat>) {
    && (forall k :: 0 <= k < |ids| ==> ids[k] in s.rows && Eligible(s, ids[k], kind))
    && (forall id :: id in left ==> id in s.rows && Eligible(s, id, kind))
    && (forall id :: id in s.rows && Eligible(s, id, kind) && id !in ids ==> id in left)
    && (forall j, k :: 0 <= j < k < |ids| ==> s.rows[ids[j]].order < s.rows[ids[k]].order)
    && (forall k, id :: 0 <= k < |ids| && id in left ==> s.rows[ids[k]].order < s.rows[id].order)
  }

  lemma ChosenNext(s: State, kind: Kind, ids: seq<nat>, left: set<nat>, id: nat)
    requires OrdersDistinct(s) && Chosen(s, kind, ids, left) && id in left && forall x :: x in left ==> s.rows[id].order <= s.rows[x].order
    ensures Chosen(s, kind, ids + [id], left - {id})
  {
    hide Eligible;
    var more := ids + [id];
    assert forall k :: 0 <= k < |ids| ==> more[k] == ids[k];
    assert forall x :: x in ids ==> x in more;
    assert id in more;
  }

  lemma ChosenBatch(s: State, kind: Kind, ids: seq<nat>, left: set<nat>)
    requires Chosen(s, kind, ids, left) && |ids| <= BATCH && (left == {} || |ids| == BATCH)
    ensures BatchOk(s, kind, ids) && (|ids| < BATCH ==> forall id :: id in s.rows && Eligible(s, id, kind) ==> id in ids)
  {
    hide Eligible;
  }

  /** next_pending_batch: the oldest eligible rows, at most twenty, in order. */
  method NextPendingBatch(s: State, kind: Kind) returns (ids: seq<nat>)
    requires OrdersDistinct(s)
    ensures BatchOk(s, kind, ids) && |ids| <= 20 && (|ids| < 20 ==> forall id :: id in s.rows && Eligible(s, id, kind) ==> id in ids)
  {
    hide Eligible, BatchOk, OrdersDistinct, Due;
    var left := set id | id in s.rows && Eligible(s, id, kind);
    ids := [];
    while left != {} && |ids| < BATCH
      invariant Chosen(s, kind, ids, left) && |ids| <= BATCH
      decreases left
    {
      var id := Oldest(s.rows, left);
      ChosenNext(s, kind, ids, left, id);
      ids := ids + [id];
      left := left - {id};
    }
    ChosenBatch(s, kind, ids, left);
  }

  // The worker's own steps.

  lemma SkipStep(active: set<Kind>, s: State, w: nat)
    requires PhaseOf(s, w).Draining? && PhaseOf(s, w).todo != []
    ensures Enabled(active, s, Skip(w))
    ensures var p := PhaseOf(s, w); Next(s, Skip(w)) == Moved(s, w, Draining(p.kind, p.todo[1..]))
  {
  }

  lemma ClaimStep(active: set<Kind>, s: State, w: nat)
    requires PhaseOf(s, w).Draining? && PhaseOf(s, w).todo != [] && Claimable(s, PhaseOf(s, w).todo[0], PhaseOf(s, w).kind)
    ensures Enabled(active, s, Step.Claim(w))
    ensures var p := PhaseOf(s, w); Next(s, Step.Claim(w)) == Moved(s, w, Holding(p.kind, p.todo[1..], p.todo[0], s.now))
  {
  }

  lemma DeliverStep(active: set<Kind>, s: State, w: nat, answer: Answer)
    requires PhaseOf(s, w).Holding?
    ensures Enabled(active, s, Step.Deliver(w, answer))
    ensures var p, u := PhaseOf(s, w), Next(s, Step.Deliver(w, answer));
            PhaseOf(u, w) == Answering(p.kind, p.todo, p.id, p.began, answer) && u.rows == s.rows
  {
  }

  lemma LoseStep(active: set<Kind>, s: State, w: nat)
    requires PhaseOf(s, w).Answering?
    ensures Enabled(active, s, Lose(w))
    ensures var p := PhaseOf(s, w); Next(s, Lose(w)) == Moved(s, w, Draining(p.kind, p.todo))
  {
  }

  lemma SettleStep(active: set<Kind>, s: State, w: nat)
    requires Fine(active, s) && PhaseOf(s, w).Answering?
    ensures Enabled(active, s, Step.Settle(w)) && PhaseOf(s, w).id in s.rows
    ensures var p, u := PhaseOf(s, w), Next(s, Step.Settle(w));
            PhaseOf(u, w) == Draining(p.kind, p.todo) && u.rows == s.rows[p.id := Settled(s.rows[p.id], p.answer, p.began)]
  {
    hide Settled;
    HeldRow(active, s, w);
  }

  class OutboxTable {
    var state: State

    constructor (start: State)
      ensures state == start
    {
      state := start;
    }

    /** Other workers, users, operators and the clock. */
    method Elsewhere(active: set<Kind>, w: nat, env: seq<Step>)
      modifies this
      ensures state == Around(active, old(state), w, env)
    {
      ghost var goal := Around(active, state, w, env);
      assert env[0..] == env;
      for i := 0 to |env|
        invariant Around(active, state, w, env[i..]) == goal
      {
        assert env[i..][0] == env[i] && env[i..][1..] == env[i + 1..];
        if !Acts(env[i], w) && Enabled(active, state, env[i]) {
          state := Next(state, env[i]);
        }
      }
    }

    /** The same, as part of a run. */
    method Heed(active: set<Kind>, w: nat, env: seq<Step>, ghost start: State, ghost trace: seq<Step>, ghost n: nat)
      returns (ghost more: seq<Step>)
      requires Fine(active, state) && Reached(active, w, start, trace, state, n)
      modifies this
      ensures state == Around(active, old(state), w, env) && Fine(active, state) && Reached(active, w, start, more, state, n)
    {
      hide Enabled, Next, Fine, Around, StepsAround;
      AroundRuns(active, state, w, env);
      AroundKeeps(active, state, w, env);
      more := trace + StepsAround(active, state, w, env);
      RunsAppend(active, w, start, trace, StepsAround(active, state, w, env));
      Elsewhere(active, w, env);
    }

    /** One step of the worker itself. */
    method Do(active: set<Kind>, w: nat, step: Step, ghost start: State, ghost trace: seq<Step>, ghost n: nat)
      returns (ghost more: seq<Step>, ghost m: nat)
      requires Fine(active, state) && Enabled(active, state, step) && Reached(active, w, start, trace, state, n)
      modifies this
      ensures state == Next(old(state), step) && Fine(active, state) && Reached(active, w, start, more, state, m)
      ensures m == n + if step == Settle(w) && PhaseOf(old(state), w).Answering? && Success(PhaseOf(old(state), w).answer) then 1 else 0
    {
      hide Enabled, Next, Fine, Reached;
      OneMore(active, w, start, trace, state, n, step);
      StepFine(active, state, step);
      more := trace + [step];
      m := n + if step == Settle(w) && PhaseOf(state, w).Answering? && Success(PhaseOf(state, w).answer) then 1 else 0;
      state := Next(state, step);
    }

    /** Claim one row, deliver it, settle it; the claim is skipped if another worker holds the row
        or it is not due any more.  From the claim to the settlement nobody changes the row. */
    method DeliverClaimed(active: set<Kind>, w: nat, x: Script, ghost start: State, ghost trace: seq<Step>,
        ghost n: nat)
      returns (delivered: bool, ghost more: seq<Step>, ghost m: nat)
      requires Fine(active, state) && PhaseOf(state, w).Draining? && PhaseOf(state, w).todo != []
      requires Reached(active, w, start, trace, state, n)
      modifies this
      ensures Fine(active, state) && Reached(active, w, start, more, state, m)
      ensures var p := PhaseOf(old(state), w); PhaseOf(state, w) == Draining(p.kind, p.todo[1..])
      ensures var p, found := PhaseOf(old(state), w), Around(active, old(state), w, x.before);
              var id, claimed := p.todo[0], Claimable(found, p.todo[0], p.kind);
              && (delivered <==> claimed && Success(x.answer) && x.fate.Heard?)
              && m == n + (if claimed && Success(x.answer) && !x.fate.NotApplied? then 1 else 0)
              && (claimed ==> id in found.rows && id in state.rows
                              && state.rows[id] == if x.fate.NotApplied? then found.rows[id] else Settled(found.rows[id], x.answer, found.now))
              && (!claimed ==> state.rows == found.rows)
      ensures (PhaseOf(old(state), w).kind != FORUM_EVENT || x.resolved) ==> (state, delivered) == Served(active, old(state), w, x)
    {
      hide Enabled, Next, Fine, Reached, Around, StepsAround, Settled, Success;
      m := n;
      var p := PhaseOf(state, w);
      AroundKeeps(active, state, w, x.before);
      more := Heed(active, w, x.before, start, trace, m);
      if !Claimable(state, p.todo[0], p.kind) {
        SkipStep(active, state, w);
        more, m := Do(active, w, Skip(w), start, more, m);
        return false, more, m;
      }
      ClaimStep(active, state, w);
      more, m := Do(active, w, Step.Claim(w), start, more, m);
      AroundKeeps(active, state, w, x.during);
      more := Heed(active, w, x.during, start, more, m);
      DeliverStep(active, state, w, x.answer);
      more, m := Do(active, w, Step.Deliver(w, x.answer), start, more, m);
      AroundKeeps(active, state, w, x.after);
      more := Heed(active, w, x.after, start, more, m);
      if x.fate.NotApplied? {
        LoseStep(active, state, w);
        more, m := Do(active, w, Lose(w), start, more, m);
        return false, more, m;
      }
      SettleStep(active, state, w);
      more, m := Do(active, w, Step.Settle(w), start, more, m);
      return Success(x.answer) && x.fate.Heard?, more, m;
    }

    /** A forum event whose thread does not resolve: its failure is recorded without a claim, by an
        update that has to wait for a holder.  If it cannot be made the row keeps its due state. */
    method FailUnclaimed(active: set<Kind>, w: nat, x: Script, ghost start: State, ghost trace: seq<Step>, ghost n: nat)
      returns (ghost more: seq<Step>, ghost m: nat)
      requires Fine(active, state) && Reached(active, w, start, trace, state, n)
      requires PhaseOf(state, w).Draining? && PhaseOf(state, w).todo != [] && PhaseOf(state, w).kind == FORUM_EVENT
      modifies this
      ensures Fine(active, state) && Reached(active, w, start, more, state, m) && m == n
      ensures var p := PhaseOf(old(state), w); PhaseOf(state, w) == Draining(p.kind, p.todo[1..])
      ensures var found, id := Around(active, old(state), w, x.before), PhaseOf(old(state), w).todo[0];
              id in found.rows && state.rows == if Locked(found, id) || x.fate.NotApplied? then found.rows
                                                else found.rows[id := Failed(found.rows[id], found.now, None)]
      ensures !x.resolved ==> (state, false) == Served(active, old(state), w, x)
    {
      hide Enabled, Next, Fine, Reached, Around, StepsAround, Failed;
      AroundKeeps(active, state, w, x.before);
      more := Heed(active, w, x.before, start, trace, n);
      CandidateExists(active, state, w);
      if Locked(state, PhaseOf(state, w).todo[0]) || x.fate.NotApplied? {
        SkipStep(active, state, w);
        more, m := Do(active, w, Skip(w), start, more, n);
      } else {
        PrepareFailedStep(active, state, w);
        more, m := Do(active, w, PrepareFailed(w), start, more, n);
      }
    }

    /** The candidates of a batch, one after the other. */
    method DrainBatch(active: set<Kind>, w: nat, kind: Kind, ids: seq<nat>, scripts: seq<Script>, ghost start: State,
        ghost trace: seq<Step>, ghost n: nat)
      returns (delivered: nat, ghost more: seq<Step>, ghost m: nat)
      requires Fine(active, state) && PhaseOf(state, w) == Draining(kind, ids) && Reached(active, w, start, trace, state, n)
      modifies this
      ensures Fine(active, state) && Resting(PhaseOf(state, w)) && Reached(active, w, start, more, state, m)
      ensures (state, delivered) == Drained(active, old(state), w, scripts, 0, |ids|)
      ensures n + delivered <= m && (AllHeard(scripts) ==> n + delivered == m)
    {
      hide Fine, Reached, Around, Success, Claimable, Settled, Failed, Served;
      delivered, more, m := 0, trace, n;
      assert ids[0..] == ids;
      ghost var goal := Drained(active, state, w, scripts, 0, |ids|);
      for i := 0 to |ids|
        invariant var rest := Drained(active, state, w, scripts, i, |ids| - i); goal == (rest.0, delivered + rest.1)
        invariant Fine(active, state) && Reached(active, w, start, more, state, m) && PhaseOf(state, w) == Draining(kind, ids[i..])
        invariant n + delivered <= m && (AllHeard(scripts) ==> n + delivered == m)
      {
        assert ids[i..] != [] && ids[i..][1..] == ids[i + 1..];
        var x := ScriptAt(scripts, i);
        if kind == FORUM_EVENT && !x.resolved {
          more, m := FailUnclaimed(active, w, x, start, more, m);
        } else {
          var ok;
          ok, more, m := DeliverClaimed(active, w, x, start, more, m);
          if ok {
            delivered := delivered + 1;
          }
        }
      }
    }

    /** Drain one channel: the result is the number of deliveries the worker heard of, out of those
        it made, and everything it did is a run of the protocol among the steps of the others. */
    method DrainChannel(active: set<Kind>, w: nat, kind: Kind, c: Channel, ghost start: State, ghost trace: seq<Step>,
        ghost n: nat)
      returns (delivered: nat, ghost more: seq<Step>, ghost m: nat)
      requires kind in active && Fine(active, state) && Resting(PhaseOf(state, w)) && Reached(active, w, start, trace, state, n)
      modifies this
      ensures Fine(active, state) && Resting(PhaseOf(state, w)) && Reached(active, w, start, more, state, m)
      ensures (state, delivered) == DrainedChannel(active, old(state), w, kind, c)
      ensures n + delivered <= m && (AllHeard(c.scripts) ==> n + delivered == m)
    {
      hide Enabled, Next, Fine, Reached, Around, Drained, Resting, BatchOk;
      delivered, m := 0, n;
      AroundKeeps(active, state, w, c.before);
      more := Heed(active, w, c.before, start, trace, n);
      if !c.queried {
        return;
      }
      FineOrders(active, state);
      var ids := NextPendingBatch(state, kind);
      BatchUnique(state, kind, ids, BatchOf(state, kind));
      BatchStep(active, state, w, kind, ids);
      more, m := Do(active, w, Batch(w, kind, ids), start, more, m);
      delivered, more, m := DrainBatch(active, w, kind, ids, c.scripts, start, more, m);
    }

    /** The three channels in their fixed order; a channel that is not active is passed over, and
        a channel whose query fails does not stop the next. */
    method RunOnce(active: set<Kind>, w: nat, kicks: Channel, events: Channel, wakes: Channel, ghost start: State,
        ghost trace: seq<Step>)
      returns (delivered: nat, ghost more: seq<Step>, ghost m: nat)
      requires Fine(active, state) && Resting(PhaseOf(state, w)) && Reached(active, w, start, trace, state, Deliveries(start, w, trace))
      modifies this
      ensures Fine(active, state) && Resting(PhaseOf(state, w)) && Reached(active, w, start, more, state, m)
      ensures (state, delivered) == Passed(active, Passed(active, Passed(active, (old(state), 0), w, EXECUTION_KICK, kicks), w, FORUM_EVENT, events),
                                           w, OWNER_ASSISTANCE_WAKE, wakes)
      ensures Deliveries(start, w, trace) + delivered <= m
      ensures AllHeard(kicks.scripts) && AllHeard(events.scripts) && AllHeard(wakes.scripts) ==> Deliveries(start, w, trace) + delivered == m
    {
      hide Fine, Reached, Resting, AllHeard, DrainedChannel;
      delivered, more, m := 0, trace, Deliveries(start, w, trace);
      var d := 0;
      if EXECUTION_KICK in active {
        d, more, m := DrainChannel(active, w, EXECUTION_KICK, kicks, start, more, m);
        delivered := delivered + d;
      }
      if FORUM_EVENT in active {
        d, more, m := DrainChannel(active, w, FORUM_EVENT, events, start, more, m);
        delivered := delivered + d;
      }
      if OWNER_ASSISTANCE_WAKE in active {
        d, more, m := DrainChannel(active, w, OWNER_ASSISTANCE_WAKE, wakes, start, more, m);
        delivered := delivered + d;
      }
    }
  }

  lemma CandidateExists(active: set<Kind>, s: State, w: nat)
    requires Fine(active, s) && PhaseOf(s, w).Draining? && PhaseOf(s, w).todo != []
    ensures PhaseOf(s, w).todo[0] in s.rows
  {
    assert s.workers[w].todo[0] in s.rows;
  }

  lemma PrepareFailedStep(active: set<Kind>, s: State, w: nat)
    requires PhaseOf(s, w).Draining? && PhaseOf(s, w).todo != [] && PhaseOf(s, w).kind == FORUM_EVENT
    requires PhaseOf(s, w).todo[0] in s.rows && !Locked(s, PhaseOf(s, w).todo[0])
    ensures Enabled(active, s, PrepareFailed(w))
    ensures var p, u := PhaseOf(s, w), Next(s, PrepareFailed(w));
            PhaseOf(u, w) == Draining(p.kind, p.todo[1..]) && u.rows == s.rows[p.todo[0] := Failed(s.rows[p.todo[0]], s.now, None)]
  {
    hide Failed;
  }

  lemma FineOrders(active: set<Kind>, s: State)
    requires Fine(active, s)
    ensures OrdersDistinct(s)
  {
  }

  lemma BatchStep(active: set<Kind>, s: State, w: nat, kind: Kind, ids: seq<nat>)
    requires kind in active && Resting(PhaseOf(s, w)) && BatchOk(s, kind, ids)
    ensures Enabled(active, s, Batch(w, kind, ids)) && PhaseOf(Next(s, Batch(w, kind, ids)), w) == Draining(kind, ids)
  {
  }

  // ---------------------------------------------------------------------------
  // What a pass inherits
  // ---------------------------------------------------------------------------

  /** The states a run goes through. */
  ghost function Trajectory(s: State, steps: seq<Step>): (states: seq<State>)
    ensures |states| == |steps| + 1
    decreases |steps|
  {
    if steps == [] then [s] else [s] + Trajectory(Next(s, steps[0]), steps[1..])
  }

  lemma {:induction false} TrajectoryRuns(active: set<Kind>, s: State, steps: seq<Step>)
    requires Runs(active, s, steps)
    ensures var states := Trajectory(s, steps); IsRun(active, states, steps) && states[0] == s && states[|steps|] == After(s, steps)
    decreases |steps|
  {
    hide Enabled, Next;
    if steps != [] {
      TrajectoryRuns(active, Next(s, steps[0]), steps[1..]);
    }
  }

  /** So whatever led from a fresh service through any number of passes: no row is delivered a
      second time unless a worker crashed or a settlement was lost; each thread's events are in
      order if they were enqueued in order; and rows of inactive channels are as they were, unless
      an operator requeued them. */
  lemma PassInherits(active: set<Kind>, w: nat, start: State, trace: seq<Step>, s: State, n: nat, id: nat)
    requires Initial(start) && start.log == [] && Reached(active, w, start, trace, s, n)
    ensures Safe(active, s)
    ensures id in start.rows && start.rows[id].kind !in active && Requeue(id) !in trace ==> id in s.rows && s.rows[id] == start.rows[id]
    ensures (forall k :: 0 <= k < |trace| ==> !trace[k].Crash? && !trace[k].Lose?) ==> Successes(s.log, id) <= 1
    ensures (forall k :: 0 <= k < |trace| && trace[k].Enqueue? ==> NotOvertaken(Trajectory(start, trace)[k], trace[k].row)) ==> ForumOrdered(s)
  {
    hide Safe, Enabled, Next, ForumOrdered, NotOvertaken;
    TrajectoryRuns(active, start, trace);
    RunSafe(active, Trajectory(start, trace), trace, |trace|);
    if id in start.rows && start.rows[id].kind !in active && Requeue(id) !in trace {
      DisabledUntouched(active, Trajectory(start, trace), trace, 0, |trace|, id);
    }
    if forall k :: 0 <= k < |trace| ==> !trace[k].Crash? && !trace[k].Lose? {
      DuplicatesNeedACrash(active, Trajectory(start, trace), trace, |trace|, id);
    }
    if forall k :: 0 <= k < |trace| && trace[k].Enqueue? ==> NotOvertaken(Trajectory(start, trace)[k], trace[k].row) {
      ForumInOrder(active, Trajectory(start, trace), trace, |trace|);
    }
  }

  ghost function NewlyDelivered(before: State, after: State): set<nat> {
    set id | id in after.rows && after.rows[id].delivered.Some? && (id in before.rows ==> before.rows[id].delivered.None?)
  }

  lemma {:induction false} DeliveredStays(active: set<Kind>, s: State, steps: seq<Step>, id: nat)
    requires Fine(active, s) && Runs(active, s, steps) && id in s.rows && s.rows[id].delivered.Some?
    ensures id in After(s, steps).rows && After(s, steps).rows[id] == s.rows[id]
    decreases |steps|
  {
    hide Enabled, Next, Safe, OrdersDistinct;
    if steps != [] {
      StepFreezes(active, s, steps[0], id);
      StepFine(active, s, steps[0]);
      DeliveredStays(active, Next(s, steps[0]), steps[1..], id);
    }
  }

  /** Each delivery a worker made is a row of its own that was not delivered before: the deliveries
      of a run, and with them the count of a pass, never exceed the newly delivered rows. */
  lemma {:induction false} DeliveriesAreRows(active: set<Kind>, s: State, w: nat, steps: seq<Step>)
    requires Fine(active, s) && Runs(active, s, steps)
    ensures Deliveries(s, w, steps) <= |NewlyDelivered(s, After(s, steps))|
    decreases |steps|
  {
    hide Enabled, Next, Safe, OrdersDistinct;
    if steps != [] {
      var u, end := Next(s, steps[0]), After(s, steps);
      StepFine(active, s, steps[0]);
      DeliveriesAreRows(active, u, w, steps[1..]);
      var was, now := NewlyDelivered(u, end), NewlyDelivered(s, end);
      forall id | id in was ensures id in now {
        if id in s.rows && s.rows[id].delivered.Some? {
          StepFreezes(active, s, steps[0], id);
        }
      }
      Included(was, now);
      if steps[0] == Settle(w) && PhaseOf(s, w).Answering? && Success(PhaseOf(s, w).answer) {
        var id := PhaseOf(s, w).id;
        DeliveryMarks(active, s, w);
        DeliveredStays(active, u, steps[1..], id);
        Included(was + {id}, now);
      }
    }
  }

  lemma Included(a: set<nat>, b: set<nat>)
    requires a <= b
    ensures |a| <= |b|
  {
    assert b == a + (b - a);
  }

  lemma DeliveryMarks(active: set<Kind>, s: State, w: nat)
    requires Fine(active, s) && PhaseOf(s, w).Answering? && Success(PhaseOf(s, w).answer)
    ensures var id, u := PhaseOf(s, w).id, Next(s, Step.Settle(w));
            id in s.rows && s.rows[id].delivered.None? && id in u.rows && u.rows[id].delivered.Some?
  {
    HeldRow(active, s, w);
  }
}
