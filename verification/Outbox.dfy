/** The outbox reconciler: a protocol of concurrent workers that claim, send and settle rows,
    with crashes, lost settlements and HTTP answers as its environment. */
module Outbox {
  import opened Identifiers

  datatype Kind = EXECUTION_KICK | FORUM_EVENT | OWNER_ASSISTANCE_WAKE

  const MAX_ATTEMPTS: nat := 12
  const BATCH: nat := 20
  const BACKOFF_CAP: nat := 600

  /** `order` stands for the unique (created_at, outbox_id). */
  datatype Row = Row(kind: Kind, instance: nat, order: nat, key: string, attempts: nat, due: int, delivered: Option<int>, dead: Option<int>)

  /** What the receiver answered, if the request was made at all. */
  datatype Answer = NotSent | NoAnswer | Answered(code: nat)

  datatype Verdict = Delivered | Permanent | Retryable

  predicate Success(a: Answer) {
    a.Answered? && 200 <= a.code < 300
  }

  /** deliver_kick's classification; the other channels retry everything but success. */
  function Classify(kind: Kind, a: Answer): Verdict {
    if Success(a) then Delivered
    else if kind != EXECUTION_KICK then Retryable
    else
      match a
      case NotSent => Permanent
      case NoAnswer => Retryable
      case Answered(code) =>
        if code in {401, 403, 408, 409, 429} || 500 <= code < 600 then Retryable else Permanent
  }

  // ---------------------------------------------------------------------------
  // Settlement
  // ---------------------------------------------------------------------------

  function Pow2(n: nat): nat {
    if n == 0 then 1 else 2 * Pow2(n - 1)
  }

  /** LEAST(POWER(2, attempt_count + 1), 600) */
  function Backoff(attempts: nat): nat {
    if Pow2(attempts + 1) < BACKOFF_CAP then Pow2(attempts + 1) else BACKOFF_CAP
  }

  lemma {:induction false} Pow2Grows(n: nat)
    ensures Pow2(n) >= n + 1
  {
    if n > 0 {
      Pow2Grows(n - 1);
    }
  }

  /** The delay doubles from two seconds and stays at ten minutes from the ninth retry on. */
  lemma BackoffShape(attempts: nat)
    ensures 2 <= Backoff(attempts) <= BACKOFF_CAP
    ensures Backoff(attempts + 1) == if 2 * Backoff(attempts) < BACKOFF_CAP then 2 * Backoff(attempts) else BACKOFF_CAP
    ensures attempts < 9 <==> Backoff(attempts) < BACKOFF_CAP
  {
    Pow2Grows(attempts);
    assert Pow2(4) == 16 && Pow2(8) == 256 && Pow2(9) == 512 && Pow2(10) == 1024 by {
      assert Pow2(2) == 4 && Pow2(3) == 8 && Pow2(5) == 32 && Pow2(6) == 64 && Pow2(7) == 128;
    }
    if attempts >= 9 {
      Pow2Monotone(10, attempts + 1);
    } else {
      Pow2Monotone(attempts + 1, 9);
    }
  }

  lemma {:induction false} Pow2Monotone(m: nat, n: nat)
    requires m <= n
    ensures Pow2(m) <= Pow2(n)
    decreases n
  {
    if m < n {
      Pow2Monotone(m, n - 1);
    }
  }

  /** mark_attempt_failed: counts the attempt, schedules the next, dead-letters at the cap. */
  function Failed(row: Row, at: int, cap: Option<nat>): Row {
    if row.delivered.Some? then row
    else row.(attempts := row.attempts + 1, due := at + Backoff(row.attempts),
              dead := if cap.Some? && row.attempts + 1 >= cap.value then Some(at) else row.dead)
  }

  function Cap(kind: Kind): Option<nat> {
    if kind == EXECUTION_KICK then Some(MAX_ATTEMPTS) else None
  }

  /** What the delivery transaction, begun at `at`, writes for an answer. */
  function Settled(row: Row, a: Answer, at: int): Row {
    match Classify(row.kind, a)
    case Delivered => if row.delivered.Some? then row else row.(delivered := Some(at))
    case Permanent => if row.delivered.Some? then row else row.(attempts := row.attempts + 1, dead := Some(at))
    case Retryable => Failed(row, at, Cap(row.kind))
  }

  /** The request was never possible, or its answer says that repeating it is pointless. */
  predicate Rejected(a: Answer) {
    || a.NotSent?
    || (a.Answered? && !(200 <= a.code < 300) && !(500 <= a.code < 600)
        && a.code != 401 && a.code != 403 && a.code != 408 && a.code != 409 && a.code != 429)
  }

  /** What settling an open row means: delivered exactly on a 2xx answer, dead exactly for a kick
      that was rejected for good or used up its last attempt, otherwise due again later. */
  lemma SettledExactly(row: Row, a: Answer, at: int)
    requires Open(row)
    ensures var u := Settled(row, a, at);
            var ok := a.Answered? && 200 <= a.code <= 299;
            && (u.delivered.Some? <==> ok)
            && (u.dead.Some? <==> row.kind == EXECUTION_KICK && !ok && (Rejected(a) || row.attempts + 1 >= 12))
            && (ok ==> u == row.(delivered := Some(at)))
            && (!ok ==> u.attempts == row.attempts + 1 && SameIdentity(row, u))
            && (u.dead.Some? ==> u.dead == Some(at))
            && (Open(u) ==> u.due == at + Delay(row.attempts + 1))
  {
    DelayIsBackoff(row.attempts);
  }

  function Min(a: nat, b: nat): nat {
    if a < b then a else b
  }

  /** The wait after the n-th failed attempt in a row: two seconds, then twice the wait before, but
      never more than ten minutes. */
  function Delay(n: nat): nat {
    if n <= 1 then 2 else Min(2 * Delay(n - 1), 600)
  }

  lemma {:induction false} DelayIsBackoff(attempts: nat)
    ensures Delay(attempts + 1) == Backoff(attempts) == Min(Pow2(attempts + 1), 600)
  {
    if attempts > 0 {
      DelayIsBackoff(attempts - 1);
    }
  }

  /** No settlement changes a row that was delivered meanwhile. */
  lemma DeliveredIsSettled(row: Row, a: Answer, at: int)
    requires row.delivered.Some?
    ensures Settled(row, a, at) == row
  {
  }

  /** Two failures in a row that leave a row open: the first wait is two seconds for a row nobody
      attempted before, and each wait is twice the one before it, up to ten minutes. */
  lemma WaitsDouble(row: Row, a: Answer, at: int, b: Answer, later: int)
    requires Open(row)
    ensures var u := Settled(row, a, at);
            var w := Settled(u, b, later);
            && (Open(u) && row.attempts == 0 ==> u.due == at + 2)
            && (Open(u) && Open(w) ==> w.due - later == Min(2 * (u.due - at), 600))
  {
    SettledExactly(row, a, at);
    if Open(Settled(row, a, at)) {
      SettledExactly(Settled(row, a, at), b, later);
    }
  }

  /** A requeued row starts over at once; a delivered one is left alone. */
  lemma RequeuedExactly(s: State, id: nat)
    requires id in s.rows
    ensures var row := s.rows[id];
            Next(s, Requeue(id))
            == if row.delivered.Some? then s.(rows := s.rows[id := row])
               else s.(rows := s.rows[id := row.(delivered := None, dead := None, attempts := 0, due := s.now)])
  {
  }

  function Requeued(row: Row, at: int): Row {
    if row.delivered.Some? then row else row.(dead := None, attempts := 0, due := at)
  }

  // ---------------------------------------------------------------------------
  // States and steps
  // ---------------------------------------------------------------------------

  /** A worker's place in drain_channel; a held row is locked by its open transaction. */
  datatype Phase =
    | Idle
    | Draining(kind: Kind, todo: seq<nat>)
    | Holding(kind: Kind, todo: seq<nat>, id: nat, began: int)
    | Answering(kind: Kind, todo: seq<nat>, id: nat, began: int, answer: Answer)

  datatype Send = Send(id: nat, answer: Answer)

  datatype State = State(rows: map<nat, Row>, workers: map<nat, Phase>, now: int, log: seq<Send>)

  datatype Step =
    | Enqueue(id: nat, row: Row)
    | Tick(seconds: nat)
    | Batch(w: nat, kind: Kind, ids: seq<nat>)
    | PrepareFailed(w: nat)
    | Skip(w: nat)
    | Claim(w: nat)
    | Deliver(w: nat, answer: Answer)
    | Settle(w: nat)
    | Lose(w: nat)
    | Crash(w: nat)
    | Requeue(id: nat)

  function PhaseOf(s: State, w: nat): Phase {
    if w in s.workers then s.workers[w] else Idle
  }

  predicate Holds(p: Phase, id: nat) {
    (p.Holding? || p.Answering?) && p.id == id
  }

  predicate Locked(s: State, id: nat) {
    exists w :: w in s.workers && Holds(s.workers[w], id)
  }

  predicate Open(row: Row) {
    row.delivered.None? && row.dead.None?
  }

  /** Before its first batch, or done with one. */
  predicate Resting(p: Phase) {
    p.Idle? || (p.Draining? && p.todo == [])
  }

  /** claim_row's predicate, re-checked under the lock. */
  predicate Due(s: State, id: nat, kind: Kind) {
    id in s.rows && s.rows[id].kind == kind && Open(s.rows[id]) && s.rows[id].due <= s.now
  }

  /** next_pending_batch's predicate: forum events hold each other back per instance. */
  predicate Eligible(s: State, id: nat, kind: Kind) {
    Due(s, id, kind) && (kind == FORUM_EVENT ==> EarlierDelivered(s, id))
  }

  predicate EarlierDelivered(s: State, id: nat)
    requires id in s.rows
  {
    forall e :: (e in s.rows && s.rows[e].kind == FORUM_EVENT && s.rows[e].instance == s.rows[id].instance
                 && s.rows[e].order < s.rows[id].order) ==> s.rows[e].delivered.Some?
  }

  /** The batch is the eligible rows in order, oldest first, at most twenty. */
  predicate BatchOk(s: State, kind: Kind, ids: seq<nat>) {
    && |ids| <= BATCH
    && (forall k :: 0 <= k < |ids| ==> Eligible(s, ids[k], kind))
    && (forall j, k :: 0 <= j < k < |ids| ==> s.rows[ids[j]].order < s.rows[ids[k]].order)
    && (forall id :: id in s.rows && Eligible(s, id, kind) && id !in ids ==>
          |ids| == BATCH && forall k :: 0 <= k < |ids| ==> s.rows[ids[k]].order < s.rows[id].order)
  }

  /** uq_outbox_kind_event_key, the primary key, and the column defaults. */
  predicate Enqueuable(s: State, id: nat, row: Row) {
    && id !in s.rows && row.attempts == 0 && row.delivered.None? && row.dead.None? && row.due <= s.now
    && forall e :: e in s.rows ==> s.rows[e].order != row.order && !(s.rows[e].kind == row.kind && s.rows[e].key == row.key)
  }

  predicate Enabled(active: set<Kind>, s: State, step: Step) {
    match step
    case Enqueue(id, row) => Enqueuable(s, id, row)
    case Tick(_) => true
    case Batch(w, kind, ids) => Resting(PhaseOf(s, w)) && kind in active && BatchOk(s, kind, ids)
    case PrepareFailed(w) =>
      var p := PhaseOf(s, w);
      p.Draining? && p.todo != [] && p.kind == FORUM_EVENT && p.todo[0] in s.rows && !Locked(s, p.todo[0])
    case Skip(w) => PhaseOf(s, w).Draining? && PhaseOf(s, w).todo != []
    case Claim(w) =>
      var p := PhaseOf(s, w);
      p.Draining? && p.todo != [] && Due(s, p.todo[0], p.kind) && !Locked(s, p.todo[0])
    case Deliver(w, answer) => PhaseOf(s, w).Holding?
    case Settle(w) => PhaseOf(s, w).Answering? && PhaseOf(s, w).id in s.rows
    case Lose(w) => PhaseOf(s, w).Answering?
    case Crash(_) => true
    case Requeue(id) => id in s.rows && !Locked(s, id)
  }

  function Next(s: State, step: Step): State {
    match step
    case Enqueue(id, row) => s.(rows := s.rows[id := row])
    case Tick(seconds) => s.(now := s.now + seconds)
    case Batch(w, kind, ids) => Moved(s, w, Draining(kind, ids))
    case PrepareFailed(w) =>
      var p := PhaseOf(s, w);
      if !p.Draining? || p.todo == [] || p.todo[0] !in s.rows then s
      else Moved(s.(rows := s.rows[p.todo[0] := Failed(s.rows[p.todo[0]], s.now, None)]), w, Draining(p.kind, p.todo[1..]))
    case Skip(w) =>
      var p := PhaseOf(s, w);
      if !p.Draining? || p.todo == [] then s else Moved(s, w, Draining(p.kind, p.todo[1..]))
    case Claim(w) =>
      var p := PhaseOf(s, w);
      if !p.Draining? || p.todo == [] then s else Moved(s, w, Holding(p.kind, p.todo[1..], p.todo[0], s.now))
    case Deliver(w, answer) =>
      var p := PhaseOf(s, w);
      if !p.Holding? then s
      else Moved(s.(log := if answer.NotSent? then s.log else s.log + [Send(p.id, answer)]), w, Answering(p.kind, p.todo, p.id, p.began, answer))
    case Settle(w) =>
      var p := PhaseOf(s, w);
      if !p.Answering? || p.id !in s.rows then s
      else Moved(s.(rows := s.rows[p.id := Settled(s.rows[p.id], p.answer, p.began)]), w, Draining(p.kind, p.todo))
    case Lose(w) =>
      var p := PhaseOf(s, w);
      if !p.Answering? then s else Moved(s, w, Draining(p.kind, p.todo))
    case Crash(w) => Moved(s, w, Idle)
    case Requeue(id) => if id !in s.rows then s else s.(rows := s.rows[id := Requeued(s.rows[id], s.now)])
  }

  function Moved(s: State, w: nat, p: Phase): State {
    s.(workers := s.workers[w := p])
  }

  /** What may be enqueued: a fresh row, due now, under an order and a (kind, key) nobody has. */
  lemma EnqueueExactly(active: set<Kind>, s: State, id: nat, row: Row)
    ensures Enabled(active, s, Enqueue(id, row))
       <==> && id !in s.rows && row.attempts == 0 && row.delivered == None && row.dead == None && row.due <= s.now
            && (forall e :: e in s.rows ==> s.rows[e].order != row.order)
            && (forall e :: e in s.rows ==> s.rows[e].kind != row.kind || s.rows[e].key != row.key)
    ensures Next(s, Enqueue(id, row)) == s.(rows := s.rows[id := row])
  {
  }

  /** A worker queries a batch before its first candidate or after its last, never in between. */
  lemma BatchExactly(active: set<Kind>, s: State, w: nat, kind: Kind, ids: seq<nat>)
    ensures Enabled(active, s, Batch(w, kind, ids))
       <==> && kind in active && BatchOk(s, kind, ids)
            && (w in s.workers ==> s.workers[w].Idle? || (s.workers[w].Draining? && |s.workers[w].todo| == 0))
  {
    hide BatchOk;
  }

  /** A request that was made is logged with its answer, one that was never made is not; and no row
      changes before the settlement. */
  lemma DeliverExactly(active: set<Kind>, s: State, w: nat, answer: Answer)
    requires Enabled(active, s, Deliver(w, answer))
    ensures var u := Next(s, Deliver(w, answer));
            && w in s.workers && s.workers[w].Holding? && u.rows == s.rows && u.now == s.now
            && u.log == (if answer == NotSent then s.log else s.log + [Send(s.workers[w].id, answer)])
            && u.workers == s.workers[w := Answering(s.workers[w].kind, s.workers[w].todo, s.workers[w].id, s.workers[w].began, answer)]
  {
  }

  /** A crash or a lost settlement releases the row as it was. */
  lemma ReleaseExactly(active: set<Kind>, s: State, w: nat)
    ensures Next(s, Crash(w)).rows == s.rows && PhaseOf(Next(s, Crash(w)), w).Idle?
    ensures Enabled(active, s, Lose(w)) ==> Next(s, Lose(w)).rows == s.rows
                                             && PhaseOf(Next(s, Lose(w)), w) == Draining(s.workers[w].kind, s.workers[w].todo)
  {
  }

  /** When a worker may claim its next candidate: the row is of its channel, undelivered, not dead,
      due, and in nobody's hands. */
  lemma ClaimExactly(active: set<Kind>, s: State, w: nat)
    ensures Enabled(active, s, Claim(w))
       <==> && w in s.workers && s.workers[w].Draining? && s.workers[w].todo != []
            && var id := s.workers[w].todo[0];
               && id in s.rows && s.rows[id].kind == s.workers[w].kind && s.rows[id].delivered == None && s.rows[id].dead == None
               && s.rows[id].due <= s.now
               && forall v :: v in s.workers && (s.workers[v].Holding? || s.workers[v].Answering?) ==> s.workers[v].id != id
  {
  }

  /** A forum event whose thread does not resolve fails without a claim: it never dies, and waits as
      long as an answered attempt would make it wait. */
  lemma UnclaimedFailureWaits(active: set<Kind>, s: State, w: nat)
    requires Enabled(active, s, PrepareFailed(w)) && Open(s.rows[PhaseOf(s, w).todo[0]])
    ensures var id := PhaseOf(s, w).todo[0];
            var row := s.rows[id];
            Next(s, PrepareFailed(w)).rows == s.rows[id := row.(attempts := row.attempts + 1, due := s.now + Delay(row.attempts + 1))]
  {
    hide Backoff;
    DelayIsBackoff(s.rows[PhaseOf(s, w).todo[0]].attempts);
  }

  /** Which row a batch may contain: a due, open row of the channel; of the forum channel only the
      first of its instance that is not delivered. */
  lemma EligibleExactly(s: State, id: nat, kind: Kind)
    ensures Eligible(s, id, kind)
       <==> && id in s.rows && s.rows[id].kind == kind && s.rows[id].delivered == None && s.rows[id].dead == None && s.rows[id].due <= s.now
            && (kind.FORUM_EVENT? ==>
                  forall e :: (e in s.rows && s.rows[e].kind.FORUM_EVENT? && s.rows[e].instance == s.rows[id].instance
                               && s.rows[e].delivered == None) ==> s.rows[id].order <= s.rows[e].order)
  {
  }

  // ---------------------------------------------------------------------------
  // Safety: the invariant of every reachable state
  // ---------------------------------------------------------------------------

  /** At most one worker holds a row. */
  ghost predicate OneHolder(s: State) {
    forall v, w :: (v in s.workers && w in s.workers && (s.workers[v].Holding? || s.workers[v].Answering?)
                    && Holds(s.workers[w], s.workers[v].id)) ==> v == w
  }

  /** A held row is open, of the worker's channel, and the channel is active. */
  ghost predicate HeldOpen(active: set<Kind>, s: State) {
    forall w :: w in s.workers ==>
      && (!s.workers[w].Idle? ==> s.workers[w].kind in active)
      && (s.workers[w].Holding? || s.workers[w].Answering? ==>
            s.workers[w].id in s.rows && s.rows[s.workers[w].id].kind == s.workers[w].kind && Open(s.rows[s.workers[w].id]))
  }

  /** A worker's candidates are rows of its channel. */
  ghost predicate TodoOk(s: State) {
    forall w, k :: w in s.workers && !s.workers[w].Idle? && 0 <= k < |s.workers[w].todo| ==>
      s.workers[w].todo[k] in s.rows && s.rows[s.workers[w].todo[k]].kind == s.workers[w].kind
  }

  /** An answer in hand was logged, unless nothing was sent. */
  ghost predicate AnswersLogged(s: State) {
    forall w :: w in s.workers && s.workers[w].Answering? && !s.workers[w].answer.NotSent? ==> Send(s.workers[w].id, s.workers[w].answer) in s.log
  }

  ghost predicate SentOk(log: seq<Send>, id: nat) {
    exists k :: 0 <= k < |log| && log[k].id == id && Success(log[k].answer)
  }

  ghost predicate RowOk(s: State, id: nat)
    requires id in s.rows
  {
    var row := s.rows[id];
    && (row.delivered.Some? ==> SentOk(s.log, id))
    && (row.dead.Some? ==> row.kind == EXECUTION_KICK && row.delivered.None?)
    && (row.kind == EXECUTION_KICK && Open(row) ==> row.attempts < MAX_ATTEMPTS)
  }

  ghost predicate Safe(active: set<Kind>, s: State) {
    OneHolder(s) && HeldOpen(active, s) && TodoOk(s) && AnswersLogged(s) && forall id :: id in s.rows ==> RowOk(s, id)
  }

  lemma MovedHolders(active: set<Kind>, s: State, w: nat, p: Phase)
    requires OneHolder(s) && HeldOpen(active, s) && TodoOk(s)
    requires !p.Idle? ==> p.kind in active && forall k :: 0 <= k < |p.todo| ==> p.todo[k] in s.rows && s.rows[p.todo[k]].kind == p.kind
    requires (p.Holding? || p.Answering?) ==>
               && p.id in s.rows && s.rows[p.id].kind == p.kind && Open(s.rows[p.id])
               && forall v :: v in s.workers && v != w ==> !Holds(s.workers[v], p.id)
    ensures OneHolder(Moved(s, w, p)) && HeldOpen(active, Moved(s, w, p)) && TodoOk(Moved(s, w, p))
  {
  }

  lemma LogGrows(log: seq<Send>, send: Send, id: nat)
    ensures SentOk(log, id) ==> SentOk(log + [send], id)
    ensures send.id == id && Success(send.answer) ==> SentOk(log + [send], id)
  {
    if SentOk(log, id) {
      var k :| 0 <= k < |log| && log[k].id == id && Success(log[k].answer);
      assert (log + [send])[k] == log[k];
    }
    assert (log + [send])[|log|] == send;
  }

  /** Changing a row nobody holds keeps the holders' view. */
  lemma RowChanged(active: set<Kind>, s: State, id: nat, row: Row)
    requires OneHolder(s) && HeldOpen(active, s) && TodoOk(s) && AnswersLogged(s) && !Locked(s, id)
    requires id in s.rows ==> row.kind == s.rows[id].kind
    ensures var u := s.(rows := s.rows[id := row]); OneHolder(u) && HeldOpen(active, u) && TodoOk(u) && AnswersLogged(u)
  {
    var u := s.(rows := s.rows[id := row]);
    forall w | w in u.workers
      ensures (!u.workers[w].Idle? ==> u.workers[w].kind in active)
           && (u.workers[w].Holding? || u.workers[w].Answering? ==>
                 u.workers[w].id in u.rows && u.rows[u.workers[w].id].kind == u.workers[w].kind && Open(u.rows[u.workers[w].id]))
    {
      assert !Holds(s.workers[w], id);
    }
  }

  /** Every step of every interleaving keeps the invariant. */
  lemma StepSafe(active: set<Kind>, s: State, step: Step)
    requires Safe(active, s) && Enabled(active, s, step)
    ensures Safe(active, Next(s, step))
  {
    hide Classify, Backoff, BatchOk;
    match step
    case Enqueue(id, row) =>
      assert !Locked(s, id);
      RowChanged(active, s, id, row);
    case Tick(_) =>
    case Batch(w, kind, ids) => BatchSafe(active, s, w, kind, ids);
    case PrepareFailed(w) => PrepareFailedSafe(active, s, w);
    case Skip(w) => MovedHolders(active, s, w, Draining(PhaseOf(s, w).kind, PhaseOf(s, w).todo[1..]));
    case Claim(w) =>
      var p := PhaseOf(s, w);
      MovedHolders(active, s, w, Holding(p.kind, p.todo[1..], p.todo[0], s.now));
    case Deliver(w, answer) => DeliverSafe(active, s, w, answer);
    case Settle(w) => SettleSafe(active, s, w);
    case Lose(w) => MovedHolders(active, s, w, Draining(PhaseOf(s, w).kind, PhaseOf(s, w).todo));
    case Crash(w) => MovedHolders(active, s, w, Idle);
    case Requeue(id) => RowChanged(active, s, id, Requeued(s.rows[id], s.now));
  }

  lemma BatchSafe(active: set<Kind>, s: State, w: nat, kind: Kind, ids: seq<nat>)
    requires Safe(active, s) && Enabled(active, s, Batch(w, kind, ids))
    ensures Safe(active, Next(s, Batch(w, kind, ids)))
  {
    forall k | 0 <= k < |ids| ensures ids[k] in s.rows && s.rows[ids[k]].kind == kind {
      assert Eligible(s, ids[k], kind);
    }
    MovedHolders(active, s, w, Draining(kind, ids));
  }

  lemma PrepareFailedSafe(active: set<Kind>, s: State, w: nat)
    requires Safe(active, s) && Enabled(active, s, PrepareFailed(w))
    ensures Safe(active, Next(s, PrepareFailed(w)))
  {
    hide Classify, Backoff, BatchOk;
    var p := PhaseOf(s, w);
    var row := Failed(s.rows[p.todo[0]], s.now, None);
    RowChanged(active, s, p.todo[0], row);
    MovedHolders(active, s.(rows := s.rows[p.todo[0] := row]), w, Draining(p.kind, p.todo[1..]));
  }

  lemma DeliverSafe(active: set<Kind>, s: State, w: nat, answer: Answer)
    requires Safe(active, s) && Enabled(active, s, Deliver(w, answer))
    ensures Safe(active, Next(s, Deliver(w, answer)))
  {
    var p := PhaseOf(s, w);
    var u := Next(s, Deliver(w, answer));
    MovedHolders(active, s, w, Answering(p.kind, p.todo, p.id, p.began, answer));
    forall id | id in u.rows ensures RowOk(u, id) {
      LogGrows(s.log, Send(p.id, answer), id);
    }
  }

  lemma SettleSafe(active: set<Kind>, s: State, w: nat)
    requires Safe(active, s) && Enabled(active, s, Settle(w))
    ensures Safe(active, Next(s, Settle(w)))
  {
    hide Backoff;
    var p := PhaseOf(s, w);
    var u := Moved(s, w, Draining(p.kind, p.todo));
    MovedHolders(active, s, w, Draining(p.kind, p.todo));
    assert !Locked(u, p.id);
    RowChanged(active, u, p.id, Settled(s.rows[p.id], p.answer, p.began));
    if Success(p.answer) {
      var k :| 0 <= k < |s.log| && s.log[k] == Send(p.id, p.answer);
      assert SentOk(s.log, p.id);
    }
  }

  // ---------------------------------------------------------------------------
  // What no step changes
  // ---------------------------------------------------------------------------

  predicate SameIdentity(a: Row, b: Row) {
    a.kind == b.kind && a.instance == b.instance && a.order == b.order && a.key == b.key
  }

  /** Delivered rows are frozen for ever; dead rows until an operator requeues them; rows of a
      channel that is not active until then too; no row disappears or changes its identity. */
  lemma StepFreezes(active: set<Kind>, s: State, step: Step, id: nat)
    requires Safe(active, s) && Enabled(active, s, step) && id in s.rows
    ensures var u := Next(s, step);
            && id in u.rows && SameIdentity(s.rows[id], u.rows[id])
            && (s.rows[id].delivered.Some? ==> u.rows[id] == s.rows[id])
            && ((s.rows[id].dead.Some? || s.rows[id].kind !in active) && step != Requeue(id) ==> u.rows[id] == s.rows[id])
  {
    hide Classify, Backoff, BatchOk;
  }

  /** A row that is delivered, or dead and not requeued, is neither held nor sent by any step. */
  lemma StepNeverResends(active: set<Kind>, s: State, step: Step, id: nat)
    requires Safe(active, s) && Enabled(active, s, step) && id in s.rows && !Open(s.rows[id])
    ensures !Locked(s, id) && (step.Claim? ==> PhaseOf(s, step.w).todo[0] != id)
    ensures NoNewSend(s.log, Next(s, step).log, id)
  {
    hide Classify, Backoff, BatchOk;
  }

  ghost predicate NoNewSend(before: seq<Send>, after: seq<Send>, id: nat) {
    before <= after && forall k :: |before| <= k < |after| ==> after[k].id != id
  }

  // ---------------------------------------------------------------------------
  // Whole runs
  // ---------------------------------------------------------------------------

  ghost predicate IsRun(active: set<Kind>, states: seq<State>, steps: seq<Step>) {
    |states| == |steps| + 1
    && forall k :: 0 <= k < |steps| ==> Enabled(active, states[k], steps[k]) && states[k + 1] == Next(states[k], steps[k])
  }

  /** The service starts without workers, with rows nobody has attempted yet. */
  ghost predicate Initial(s: State) {
    s.workers == map[] && forall id :: id in s.rows ==> s.rows[id].attempts == 0 && Open(s.rows[id])
  }

  lemma {:induction false} RunSafe(active: set<Kind>, states: seq<State>, steps: seq<Step>, n: nat)
    requires IsRun(active, states, steps) && Initial(states[0]) && n < |states|
    ensures Safe(active, states[n])
  {
    if n > 0 {
      RunSafe(active, states, steps, n - 1);
      StepSafe(active, states[n - 1], steps[n - 1]);
    }
  }

  /** Over every run: once a row is delivered it never changes and is never sent again. */
  lemma {:induction false} DeliveredForEver(active: set<Kind>, states: seq<State>, steps: seq<Step>, i: nat, j: nat,
      id: nat)
    requires IsRun(active, states, steps) && Initial(states[0]) && i <= j < |states|
    requires id in states[i].rows && states[i].rows[id].delivered.Some?
    ensures id in states[j].rows && states[j].rows[id] == states[i].rows[id]
    ensures NoNewSend(states[i].log, states[j].log, id)
    decreases j
  {
    hide Safe, Enabled, Next;
    if i < j {
      DeliveredForEver(active, states, steps, i, j - 1, id);
      RunSafe(active, states, steps, j - 1);
      StepFreezes(active, states[j - 1], steps[j - 1], id);
      StepNeverResends(active, states[j - 1], steps[j - 1], id);
    }
  }

  /** A dead-lettered row is settled for good unless an operator requeues it. */
  lemma {:induction false} DeadUntilRequeued(active: set<Kind>, states: seq<State>, steps: seq<Step>, i: nat, j: nat,
      id: nat)
    requires IsRun(active, states, steps) && Initial(states[0]) && i <= j < |states|
    requires id in states[i].rows && states[i].rows[id].dead.Some?
    requires forall k :: i <= k < j ==> steps[k] != Requeue(id)
    ensures id in states[j].rows && states[j].rows[id] == states[i].rows[id]
    ensures NoNewSend(states[i].log, states[j].log, id)
    decreases j
  {
    hide Safe, Enabled, Next;
    if i < j {
      DeadUntilRequeued(active, states, steps, i, j - 1, id);
      RunSafe(active, states, steps, j - 1);
      StepFreezes(active, states[j - 1], steps[j - 1], id);
      StepNeverResends(active, states[j - 1], steps[j - 1], id);
    }
  }

  /** Rows of a channel that is not active change only by an operator's requeue. */
  lemma {:induction false} DisabledUntouched(active: set<Kind>, states: seq<State>, steps: seq<Step>, i: nat, j: nat,
      id: nat)
    requires IsRun(active, states, steps) && Initial(states[0]) && i <= j < |states|
    requires id in states[i].rows && states[i].rows[id].kind !in active
    requires forall k :: i <= k < j ==> steps[k] != Requeue(id)
    ensures id in states[j].rows && states[j].rows[id] == states[i].rows[id]
    decreases j
  {
    if i < j {
      DisabledUntouched(active, states, steps, i, j - 1, id);
      RunSafe(active, states, steps, j - 1);
      StepFreezes(active, states[j - 1], steps[j - 1], id);
    }
  }

  // ---------------------------------------------------------------------------
  // Duplicates need a crash
  // ---------------------------------------------------------------------------

  /** How many requests for a row were answered with success. */
  function Successes(log: seq<Send>, id: nat): nat {
    if log == [] then 0
    else Successes(log[..|log| - 1], id) + (if log[|log| - 1].id == id && Success(log[|log| - 1].answer) then 1 else 0)
  }

  lemma SuccessesGrow(log: seq<Send>, send: Send, id: nat)
    ensures Successes(log + [send], id) == Successes(log, id) + (if send.id == id && Success(send.answer) then 1 else 0)
  {
    assert (log + [send])[..|log|] == log;
  }

  ghost predicate SettledOrInHand(s: State, id: nat) {
    || (id in s.rows && s.rows[id].delivered.Some?)
    || exists w :: w in s.workers && s.workers[w].Answering? && s.workers[w].id == id && Success(s.workers[w].answer)
  }

  ghost predicate Once(s: State) {
    forall id :: Successes(s.log, id) <= 1 && (Successes(s.log, id) == 1 ==> SettledOrInHand(s, id))
  }

  lemma StepOnce(active: set<Kind>, s: State, step: Step)
    requires Safe(active, s) && Once(s) && Enabled(active, s, step) && !step.Crash? && !step.Lose?
    ensures Once(Next(s, step))
  {
    hide BatchOk, Enqueuable, Backoff;
    var u := Next(s, step);
    forall id ensures Successes(u.log, id) <= 1 && (Successes(u.log, id) == 1 ==> SettledOrInHand(u, id)) {
      assert Successes(s.log, id) <= 1;
      if step.Deliver? {
        DeliverOnce(active, s, step.w, step.answer, id);
      } else if Successes(s.log, id) == 1 {
        if id in s.rows && s.rows[id].delivered.Some? {
          StepFreezes(active, s, step, id);
        } else {
          var w :| w in s.workers && s.workers[w].Answering? && s.workers[w].id == id && Success(s.workers[w].answer);
          AnswerStays(active, s, step, w);
        }
      }
    }
  }

  lemma DeliverOnce(active: set<Kind>, s: State, w: nat, answer: Answer, id: nat)
    requires Safe(active, s) && Once(s) && Enabled(active, s, Deliver(w, answer))
    ensures var u := Next(s, Deliver(w, answer)); Successes(u.log, id) <= 1 && (Successes(u.log, id) == 1 ==> SettledOrInHand(u, id))
  {
    var p := PhaseOf(s, w);
    var u := Next(s, Deliver(w, answer));
    assert Successes(s.log, id) <= 1 && (Successes(s.log, id) == 1 ==> SettledOrInHand(s, id));
    if p.id == id {
      assert !SettledOrInHand(s, id);
      assert u.workers[w] == Answering(p.kind, p.todo, p.id, p.began, answer);
    } else if SettledOrInHand(s, id) && !(id in s.rows && s.rows[id].delivered.Some?) {
      var v :| v in s.workers && s.workers[v].Answering? && s.workers[v].id == id && Success(s.workers[v].answer);
      assert u.workers[v] == s.workers[v];
    }
    SuccessesGrow(s.log, Send(p.id, answer), id);
  }

  lemma AnswerStays(active: set<Kind>, s: State, step: Step, w: nat)
    requires Safe(active, s) && Enabled(active, s, step) && !step.Crash? && !step.Lose? && !step.Deliver?
    requires w in s.workers && s.workers[w].Answering? && Success(s.workers[w].answer)
    ensures SettledOrInHand(Next(s, step), s.workers[w].id)
  {
    hide BatchOk, Enqueuable, Backoff;
    var u := Next(s, step);
    if step == Settle(w) {
      assert u.rows[s.workers[w].id].delivered.Some?;
    } else {
      assert w in u.workers && u.workers[w] == s.workers[w];
    }
  }

  /** In a run without crashes and lost settlements no row is delivered twice: at-least-once is
      exactly-once up to those. */
  lemma {:induction false} DuplicatesNeedACrash(active: set<Kind>, states: seq<State>, steps: seq<Step>, n: nat,
      id: nat)
    requires IsRun(active, states, steps) && Initial(states[0]) && states[0].log == [] && n < |states|
    requires forall k :: 0 <= k < n ==> !steps[k].Crash? && !steps[k].Lose?
    ensures Once(states[n]) && Successes(states[n].log, id) <= 1
  {
    if n > 0 {
      DuplicatesNeedACrash(active, states, steps, n - 1, id);
      RunSafe(active, states, steps, n - 1);
      StepOnce(active, states[n - 1], steps[n - 1]);
    }
  }

  // ---------------------------------------------------------------------------
  // Forum events in commit order
  // ---------------------------------------------------------------------------

  /** Delivered, held, or a candidate of some worker. */
  ghost predicate Taken(s: State, id: nat) {
    || (id in s.rows && s.rows[id].delivered.Some?)
    || (exists w :: w in s.workers && (Holds(s.workers[w], id) || (!s.workers[w].Idle? && id in s.workers[w].todo)))
  }

  ghost predicate ForumOrdered(s: State) {
    forall id :: id in s.rows && s.rows[id].kind == FORUM_EVENT && Taken(s, id) ==> EarlierDelivered(s, id)
  }

  /** No row that is taken already would come after the new one. */
  ghost predicate NotOvertaken(s: State, row: Row) {
    row.kind == FORUM_EVENT ==>
      forall id :: (id in s.rows && s.rows[id].kind == FORUM_EVENT && s.rows[id].instance == row.instance && Taken(s, id)) ==> s.rows[id].order < row.order
  }

  lemma TakenBefore(active: set<Kind>, s: State, step: Step, id: nat)
    requires Safe(active, s) && Enabled(active, s, step) && !step.Enqueue? && !step.Batch? && id in s.rows && Taken(Next(s, step), id)
    ensures Taken(s, id)
  {
    hide Classify, Backoff;
    var u := Next(s, step);
    if !(id in u.rows && u.rows[id].delivered.Some?) {
      var w :| w in u.workers && (Holds(u.workers[w], id) || (!u.workers[w].Idle? && id in u.workers[w].todo));
      assert w in s.workers;
    } else if step.Settle? && s.rows[id].delivered.None? {
      assert Holds(s.workers[step.w], id);
    }
  }

  /** Every step but an enqueue keeps the order of each instance's thread. */
  lemma StepKeepsOrder(active: set<Kind>, s: State, step: Step)
    requires Safe(active, s) && ForumOrdered(s) && Enabled(active, s, step) && !step.Enqueue?
    ensures ForumOrdered(Next(s, step))
  {
    hide Classify, Backoff;
    var u := Next(s, step);
    forall id | id in u.rows && u.rows[id].kind == FORUM_EVENT && Taken(u, id) ensures EarlierDelivered(u, id) {
      StepFreezes(active, s, step, id);
      if step.Batch? && !Taken(s, id) {
        assert id in step.ids;
        assert Eligible(s, id, FORUM_EVENT);
      } else if !step.Batch? {
        TakenBefore(active, s, step, id);
      }
      forall e | e in u.rows && u.rows[e].kind == FORUM_EVENT && u.rows[e].instance == u.rows[id].instance && u.rows[e].order < u.rows[id].order
        ensures u.rows[e].delivered.Some?
      {
        StepFreezes(active, s, step, e);
      }
    }
  }

  /** An enqueue keeps it exactly when no later row of the instance is under way: a transaction
      that began earlier but commits later breaks the thread order. */
  lemma EnqueueKeepsOrderExactly(active: set<Kind>, s: State, id: nat, row: Row)
    requires Safe(active, s) && ForumOrdered(s) && Enabled(active, s, Enqueue(id, row))
    ensures ForumOrdered(Next(s, Enqueue(id, row))) <==> NotOvertaken(s, row)
  {
    var u := Next(s, Enqueue(id, row));
    assert !Taken(u, id) by {
      if w :| w in u.workers && (Holds(u.workers[w], id) || (!u.workers[w].Idle? && id in u.workers[w].todo)) {
        assert false;
      }
    }
    forall x | x in s.rows ensures Taken(u, x) == Taken(s, x) {
    }
    if NotOvertaken(s, row) {
      forall x | x in u.rows && u.rows[x].kind == FORUM_EVENT && Taken(u, x) ensures EarlierDelivered(u, x) {
        assert Taken(s, x) && EarlierDelivered(s, x);
      }
    } else {
      var x :| x in s.rows && s.rows[x].kind == FORUM_EVENT && s.rows[x].instance == row.instance && Taken(s, x) && s.rows[x].order >= row.order;
      assert u.rows[id] == row && !EarlierDelivered(u, x);
    }
  }

  /** Over every run whose enqueues come in order: a forum event is delivered only after every
      earlier event of its instance. */
  lemma {:induction false} ForumInOrder(active: set<Kind>, states: seq<State>, steps: seq<Step>, n: nat)
    requires IsRun(active, states, steps) && Initial(states[0]) && n < |states|
    requires forall k :: 0 <= k < n && steps[k].Enqueue? ==> NotOvertaken(states[k], steps[k].row)
    ensures ForumOrdered(states[n])
  {
    if n > 0 {
      ForumInOrder(active, states, steps, n - 1);
      RunSafe(active, states, steps, n - 1);
      if steps[n - 1].Enqueue? {
        EnqueueKeepsOrderExactly(active, states[n - 1], steps[n - 1].id, steps[n - 1].row);
      } else {
        StepKeepsOrder(active, states[n - 1], steps[n - 1]);
      }
    }
  }

  /** The late commit, concretely: event 1 was delivered, then event 0 appears before it. */
  lemma LateCommitOvertakes()
    ensures exists active, s, step: Step ::
              Safe(active, s) && ForumOrdered(s) && Enabled(active, s, step) && step.Enqueue? && !ForumOrdered(Next(s, step))
  {
    var sent := Send(1, Answered(200));
    var first := Row(FORUM_EVENT, 7, 1, "b", 0, 0, Some(0), None);
    var late := Row(FORUM_EVENT, 7, 0, "a", 0, 0, None, None);
    var s := State(map[1 := first], map[], 0, [sent]);
    assert s.log[0] == sent;
    assert RowOk(s, 1);
    assert Safe({FORUM_EVENT}, s);
    assert Enabled({FORUM_EVENT}, s, Enqueue(0, late));
    assert !NotOvertaken(s, late) by {
      assert Taken(s, 1);
    }
    EnqueueKeepsOrderExactly({FORUM_EVENT}, s, 0, late);
  }
}
