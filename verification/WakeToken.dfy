/** The owner-wake token cache: a map under one mutex, which a fetch holds until the answer is
    stored, so every operation is atomic on the cache. */
module WakeToken {
  import opened Identifiers

  const MAX_LIFETIME: nat := 600

  datatype Key = Key(client: string, audience: string)

  /** `renewAt` is the field expires_at of the source: the renewal point, not the real expiry. */
  datatype Cached = Cached(token: string, renewAt: real)

  /** The Auth server's answer; `lifetime` is expires_in in seconds. */
  datatype Answer = Refused | Granted(token: string, tokenType: string, lifetime: nat, scopeOk: bool, blank: bool)

  function Margin(lifetime: nat): real {
    var tenth := lifetime as real * 0.1;
    if tenth < 60.0 then tenth else 60.0
  }

  function RenewalPoint(started: real, lifetime: nat): real {
    started + lifetime as real - Margin(lifetime)
  }

  /** For every admissible lifetime the renewal point lies strictly between the request and the
      real expiry, a tenth of the lifetime and so at most a minute before it. */
  lemma RenewsInTime(started: real, lifetime: nat)
    requires 1 <= lifetime <= MAX_LIFETIME
    ensures started < RenewalPoint(started, lifetime) < started + lifetime as real
    ensures started + lifetime as real - RenewalPoint(started, lifetime) <= 60.0
    ensures (started + lifetime as real - RenewalPoint(started, lifetime)) * 10.0 == lifetime as real
  {
  }

  predicate Valid(a: Answer) {
    a.Granted? && a.tokenType == "Bearer" && !a.blank && a.scopeOk && 1 <= a.lifetime <= MAX_LIFETIME
  }

  /** The moments of one call: the cache check, the request, the arrival of the answer. */
  datatype Moments = Moments(check: real, started: real, arrived: real)

  predicate Ordered(m: Moments) {
    m.check <= m.started <= m.arrived
  }

  type Cache = map<Key, Cached>

  predicate Hit(c: Cache, k: Key, m: Moments) {
    k in c && m.check < c[k].renewAt
  }

  /** The fetch succeeded in time: its token is stored and used. */
  predicate Fetched(c: Cache, k: Key, m: Moments, a: Answer) {
    !Hit(c, k, m) && Valid(a) && m.arrived < RenewalPoint(m.started, a.lifetime)
  }

  function AfterBearer(c: Cache, k: Key, m: Moments, a: Answer): Cache {
    if Hit(c, k, m) then c
    else if Fetched(c, k, m, a) then c[k := Cached(a.token, RenewalPoint(m.started, a.lifetime))]
    else c - {k}
  }

  /** What one call leaves in the cache, read off the entry, the clock and the answer: a refused,
      mistyped, blank, wrongly scoped, too long or late answer leaves nothing under the key. */
  lemma CallExactly(c: Cache, k: Key, m: Moments, a: Answer)
    requires Ordered(m)
    ensures var granted := a.Granted? && a.tokenType == "Bearer" && !a.blank && a.scopeOk && 1 <= a.lifetime <= 600
                           && m.arrived < m.started + a.lifetime as real * 0.9;
            AfterBearer(c, k, m, a)
            == if k in c && m.check < c[k].renewAt then c
               else if granted then c[k := Cached(a.token, m.started + a.lifetime as real * 0.9)]
               else map x | x in c && x != k :: c[x]
  {
    if Valid(a) {
      RenewsInTime(m.started, a.lifetime);
    }
    assert c - {k} == map x | x in c && x != k :: c[x];
  }

  function AfterInvalidate(c: Cache, k: Key, bearer: string): Cache {
    if k in c && c[k].token == bearer then c - {k} else c
  }

  class TokenCache {
    var tokens: Cache

    constructor ()
      ensures tokens == map[]
    {
      tokens := map[];
    }

    /** The bearer to use, or None for an error. */
    method Bearer(k: Key, m: Moments, a: Answer) returns (bearer: Option<string>)
      requires Ordered(m)
      modifies this
      ensures tokens == AfterBearer(old(tokens), k, m, a)
      ensures bearer.Some? <==> k in tokens
      ensures bearer.Some? ==> bearer.value == tokens[k].token
      ensures bearer.Some? ==> (if Hit(old(tokens), k, m) then m.check else m.arrived) < tokens[k].renewAt
    {
      if k in tokens {
        if m.check < tokens[k].renewAt {
          return Some(tokens[k].token);
        }
      }
      tokens := tokens - {k};
      if a.Refused? {
        return None;
      }
      if a.tokenType != "Bearer" || a.blank || !a.scopeOk || !(1 <= a.lifetime <= MAX_LIFETIME) {
        return None;
      }
      var renewAt := m.started + a.lifetime as real - Margin(a.lifetime);
      if m.arrived >= renewAt {
        return None;
      }
      tokens := tokens[k := Cached(a.token, renewAt)];
      return Some(a.token);
    }

    /** After a 401: evict exactly the token that was refused. */
    method Invalidate(k: Key, bearer: string)
      modifies this
      ensures tokens == AfterInvalidate(old(tokens), k, bearer)
      ensures forall x :: x in old(tokens) && !(x == k && old(tokens)[x].token == bearer) ==> x in tokens && tokens[x] == old(tokens)[x]
    {
      if k in tokens && tokens[k].token == bearer {
        tokens := tokens - {k};
      }
    }
  }

  // ---------------------------------------------------------------------------
  // Runs
  // ---------------------------------------------------------------------------

  datatype Op = Use(key: Key, moments: Moments, answer: Answer) | Refuse(key: Key, bearer: string)

  function After(c: Cache, op: Op): Cache {
    match op
    case Use(k, m, a) => AfterBearer(c, k, m, a)
    case Refuse(k, bearer) => AfterInvalidate(c, k, bearer)
  }

  /** Caches between the operations, and a clock that does not run backwards. */
  ghost predicate IsRun(caches: seq<Cache>, ops: seq<Op>) {
    && |caches| == |ops| + 1 && caches[0] == map[]
    && (forall k :: 0 <= k < |ops| ==> caches[k + 1] == After(caches[k], ops[k]))
    && (forall k :: 0 <= k < |ops| && ops[k].Use? ==> Ordered(ops[k].moments))
    && (forall j, k :: 0 <= j < k < |ops| && ops[j].Use? && ops[k].Use? ==> ops[j].moments.arrived <= ops[k].moments.check)
  }

  predicate FetchesAt(caches: seq<Cache>, ops: seq<Op>, k: nat)
    requires k < |ops| && |caches| == |ops| + 1
  {
    ops[k].Use? && Fetched(caches[k], ops[k].key, ops[k].moments, ops[k].answer)
  }

  /** The token fetched at `i` is refused by a 401 after `i` and before `n`. */
  ghost predicate RefusedBetween(caches: seq<Cache>, ops: seq<Op>, i: nat, n: nat)
    requires i < |ops| && n <= |ops| && |caches| == |ops| + 1 && ops[i].Use? && ops[i].answer.Granted?
  {
    exists k :: i < k < n && ops[k] == Refuse(ops[i].key, ops[i].answer.token)
  }

  /** A fetched token stays cached until it is refused or its renewal point has come. */
  lemma {:induction false} FetchedStays(caches: seq<Cache>, ops: seq<Op>, i: nat, n: nat)
    requires IsRun(caches, ops) && i < n <= |ops| && FetchesAt(caches, ops, i)
    ensures var k := ops[i].key;
            var entry := Cached(ops[i].answer.token, RenewalPoint(ops[i].moments.started, ops[i].answer.lifetime));
            || (k in caches[n] && caches[n][k] == entry)
            || RefusedBetween(caches, ops, i, n)
            || (exists j :: i < j < n && ops[j].Use? && ops[j].key == k && ops[j].moments.check >= entry.renewAt)
    decreases n
  {
    if n > i + 1 {
      FetchedStays(caches, ops, i, n - 1);
      var k := ops[i].key;
      var entry := Cached(ops[i].answer.token, RenewalPoint(ops[i].moments.started, ops[i].answer.lifetime));
      if k in caches[n - 1] && caches[n - 1][k] == entry && !(k in caches[n] && caches[n][k] == entry) {
        assert caches[n] == After(caches[n - 1], ops[n - 1]);
        assert ops[n - 1] == Refuse(k, entry.token) || (ops[n - 1].Use? && ops[n - 1].key == k && ops[n - 1].moments.check >= entry.renewAt);
      }
    }
  }

  /** Over every run: a second successful fetch for a key starts only after the first token's
      renewal point or after a 401 for that very token; a stale 401 never forces one. */
  lemma SecondFetch(caches: seq<Cache>, ops: seq<Op>, i: nat, j: nat)
    requires IsRun(caches, ops) && i < j < |ops| && FetchesAt(caches, ops, i) && FetchesAt(caches, ops, j) && ops[i].key == ops[j].key
    ensures RefusedBetween(caches, ops, i, j) || ops[j].moments.started >= RenewalPoint(ops[i].moments.started, ops[i].answer.lifetime)
  {
    FetchedStays(caches, ops, i, j);
    var renewAt := RenewalPoint(ops[i].moments.started, ops[i].answer.lifetime);
    assert Ordered(ops[j].moments);
    if k :| i < k < j && ops[k].Use? && ops[k].key == ops[i].key && ops[k].moments.check >= renewAt {
      assert Ordered(ops[k].moments) && ops[k].moments.arrived <= ops[j].moments.check;
    }
  }

  /** Where a cached entry comes from. */
  lemma {:induction false} CachedWasFetched(caches: seq<Cache>, ops: seq<Op>, n: nat, k: Key)
    requires IsRun(caches, ops) && n <= |ops| && k in caches[n]
    ensures exists i :: 0 <= i < n && FetchesAt(caches, ops, i) && ops[i].key == k
                        && caches[n][k] == Cached(ops[i].answer.token, RenewalPoint(ops[i].moments.started, ops[i].answer.lifetime))
  {
    if n > 0 {
      assert caches[n] == After(caches[n - 1], ops[n - 1]);
      if FetchesAt(caches, ops, n - 1) && ops[n - 1].key == k {
      } else {
        assert k in caches[n - 1] && caches[n][k] == caches[n - 1][k];
        CachedWasFetched(caches, ops, n - 1, k);
      }
    }
  }

  /** Every bearer handed out is at that moment before the real expiry of a token Auth granted
      for the key. */
  lemma BearerIsFresh(caches: seq<Cache>, ops: seq<Op>, n: nat)
    requires IsRun(caches, ops) && n < |ops| && ops[n].Use? && ops[n].key in caches[n + 1]
    ensures exists i :: 0 <= i <= n && FetchesAt(caches, ops, i) && ops[i].key == ops[n].key
              && caches[n + 1][ops[n].key].token == ops[i].answer.token
              && (if i == n then ops[n].moments.arrived else ops[n].moments.check) < ops[i].moments.started + ops[i].answer.lifetime as real
  {
    CachedWasFetched(caches, ops, n + 1, ops[n].key);
    var i :| 0 <= i < n + 1 && FetchesAt(caches, ops, i) && ops[i].key == ops[n].key
             && caches[n + 1][ops[n].key] == Cached(ops[i].answer.token, RenewalPoint(ops[i].moments.started, ops[i].answer.lifetime));
    RenewsInTime(ops[i].moments.started, ops[i].answer.lifetime);
    assert caches[n + 1] == After(caches[n], ops[n]);
  }
}
