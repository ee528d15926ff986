/** What moving a pair's domain roles does: when every move is accepted, which bindings are
    enabled afterwards, and what is conserved. */
module CutoverDomains {
  import opened Identifiers
  import opened Ledger
  import opened EventLog
  import opened Cutover
  import Bindings

  /** All tuples of one pair. */
  ghost predicate OfPair(ds: seq<DomainTuple>, pair: PairId) {
    forall d :: d in ds ==> d.oldPrincipal == pair.oldPrincipal && d.newPrincipal == pair.newPrincipal
  }

  ghost predicate KeysDistinct(ds: seq<DomainTuple>) {
    forall j, k :: 0 <= j < k < |ds| ==> OldKey(ds[j]) != OldKey(ds[k])
  }

  ghost predicate IsOld(ds: seq<DomainTuple>, k: Bindings.Key) {
    exists d :: d in ds && OldKey(d) == k
  }

  ghost predicate IsNew(ds: seq<DomainTuple>, k: Bindings.Key) {
    exists d :: d in ds && NewKey(d) == k
  }

  ghost predicate BindingFree(b: Bindings.Table, index: nat, d: DomainTuple) {
    NewKey(d) in b || forall k :: k in b ==> b[k].id != BindingId(index, d)
  }

  /** What one tuple needs of the bindings as they are before the first move. */
  ghost predicate TupleFits(domains: map<Uuid, Domain>, b: Bindings.Table, index: nat, d: DomainTuple) {
    && (d.role == Bindings.DOMAIN_OWNER || d.role == Bindings.DOMAIN_MEMBER)
    && DomainState(domains, b, d) == Pre && BindingFree(b, index, d)
  }

  /** The same for all tuples, read off the state before the first move. */
  ghost predicate DomainsFit(domains: map<Uuid, Domain>, b: Bindings.Table, index: nat, ds: seq<DomainTuple>) {
    KeysDistinct(ds) && forall d :: d in ds ==> TupleFits(domains, b, index, d)
  }

  /** The single-owner index never rejects the upsert: the old owner was just disabled. */
  lemma OneAccepted(domains: map<Uuid, Domain>, b: Bindings.Table, index: nat, d: DomainTuple)
    requires Bindings.SingleOwner(b)
    ensures DomainAccepted(domains, b, index, d) <==> TupleFits(domains, b, index, d)
  {
    if DomainState(domains, b, d) == Pre {
      var u := b[OldKey(d) := b[OldKey(d)].(enabled := false)];
      assert OldKey(d) != NewKey(d);
      assert forall k :: k in u <==> k in b;
      assert forall k :: k in b ==> u[k].id == b[k].id;
    }
  }

  lemma MovedState(b: Bindings.Table, index: nat, d: DomainTuple, k: Bindings.Key)
    requires Bindings.Enabled(b, OldKey(d)) && !Bindings.Enabled(b, NewKey(d))
    ensures Bindings.Enabled(DomainMoved(b, index, d), k) <==> k == NewKey(d) || (k != OldKey(d) && Bindings.Enabled(b, k))
    ensures k in DomainMoved(b, index, d) <==> k in b || k == NewKey(d)
    ensures k in b ==> DomainMoved(b, index, d)[k].id == b[k].id
    ensures NewKey(d) !in b ==> DomainMoved(b, index, d)[NewKey(d)].id == BindingId(index, d)
  {
  }

  /** A move leaves the fitness of every tuple with another key as it was. */
  lemma FitsPersists(domains: map<Uuid, Domain>, b: Bindings.Table, index: nat, done: DomainTuple, d: DomainTuple)
    requires done.oldPrincipal == d.oldPrincipal && done.newPrincipal == d.newPrincipal
    requires TupleFits(domains, b, index, done)
    ensures TupleFits(domains, DomainMoved(b, index, done), index, d) <==> TupleFits(domains, b, index, d) && OldKey(d) != OldKey(done)
  {
    var u := DomainMoved(b, index, done);
    forall k ensures k in u <==> k in b || k == NewKey(done) {
      MovedState(b, index, done, k);
    }
    forall k | k in b ensures u[k].id == b[k].id {
      MovedState(b, index, done, k);
    }
    MovedState(b, index, done, OldKey(d));
    MovedState(b, index, done, NewKey(d));
    MovedState(b, index, done, NewKey(done));
    if OldKey(d) != OldKey(done) {
      assert NewKey(d) != NewKey(done) && BindingId(index, d) != BindingId(index, done);
      assert BindingFree(u, index, d) <==> BindingFree(b, index, d);
    }
  }

  /** Every move is accepted in its turn exactly when all of them fit at the start. */
  lemma {:induction false} DomainsAcceptedExactly(domains: map<Uuid, Domain>, b: Bindings.Table, index: nat,
      pair: PairId, ds: seq<DomainTuple>)
    requires OfPair(ds, pair) && Bindings.SingleOwner(b)
    ensures DomainsAccepted(domains, b, index, ds) <==> DomainsFit(domains, b, index, ds)
    decreases |ds|
  {
    if ds != [] {
      var d, rest := ds[0], ds[1..];
      assert ds == [d] + rest;
      assert forall x :: x in rest ==> x in ds;
      OneAccepted(domains, b, index, d);
      if TupleFits(domains, b, index, d) {
        var u := DomainMoved(b, index, d);
        Bindings.MoveKeepsSingleOwner(b, OldKey(d), NewKey(d), BindingId(index, d));
        DomainsAcceptedExactly(domains, u, index, pair, rest);
        forall x | x in rest ensures TupleFits(domains, u, index, x) <==> TupleFits(domains, b, index, x) && OldKey(x) != OldKey(d) {
          FitsPersists(domains, b, index, d, x);
        }
        PeeledKeys(ds);
        assert DomainsFit(domains, u, index, rest) <==> DomainsFit(domains, b, index, ds);
      }
    }
  }

  lemma PeeledKeys(ds: seq<DomainTuple>)
    requires ds != []
    ensures KeysDistinct(ds) <==> KeysDistinct(ds[1..]) && forall x :: x in ds[1..] ==> OldKey(x) != OldKey(ds[0])
  {
    var rest := ds[1..];
    if KeysDistinct(rest) && forall x :: x in rest ==> OldKey(x) != OldKey(ds[0]) {
      forall j, k | 0 <= j < k < |ds| ensures OldKey(ds[j]) != OldKey(ds[k]) {
        assert ds[k] == rest[k - 1];
        if j > 0 {
          assert ds[j] == rest[j - 1];
        }
      }
    }
    if KeysDistinct(ds) {
      forall j, k | 0 <= j < k < |rest| ensures OldKey(rest[j]) != OldKey(rest[k]) {
        assert rest[j] == ds[j + 1] && rest[k] == ds[k + 1];
      }
      forall x | x in rest ensures OldKey(x) != OldKey(ds[0]) {
        var j :| 0 <= j < |rest| && rest[j] == x;
        assert ds[j + 1] == x;
      }
    }
  }

  /** Which bindings are enabled after all moves: the planned ones changed hands, the rest is
      as before; no row disappears. */
  lemma {:induction false} DomainsMovedState(domains: map<Uuid, Domain>, b: Bindings.Table, index: nat, pair: PairId,
      ds: seq<DomainTuple>, k: Bindings.Key)
    requires OfPair(ds, pair) && DomainsAccepted(domains, b, index, ds)
    ensures Bindings.Enabled(DomainsMoved(b, index, ds), k) <==> IsNew(ds, k) || (Bindings.Enabled(b, k) && !IsOld(ds, k))
    ensures k in b ==> k in DomainsMoved(b, index, ds)
    decreases |ds|
  {
    if ds != [] {
      var d, rest := ds[0], ds[1..];
      assert ds == [d] + rest;
      MovedState(b, index, d, k);
      DomainsMovedState(domains, DomainMoved(b, index, d), index, pair, rest, k);
      assert IsNew(ds, k) <==> NewKey(d) == k || IsNew(rest, k);
      assert IsOld(ds, k) <==> OldKey(d) == k || IsOld(rest, k);
      assert pair.oldPrincipal != pair.newPrincipal;
      assert k == NewKey(d) ==> !IsOld(rest, k);
    }
  }

  /** Every tuple is terminal after the moves. */
  lemma DomainsMovedReady(domains: map<Uuid, Domain>, b: Bindings.Table, index: nat, pair: PairId,
      ds: seq<DomainTuple>, d: DomainTuple)
    requires OfPair(ds, pair) && Bindings.SingleOwner(b) && DomainsAccepted(domains, b, index, ds) && d in ds
    ensures DomainState(domains, DomainsMoved(b, index, ds), d) == Ready
  {
    DomainsAcceptedExactly(domains, b, index, pair, ds);
    assert TupleFits(domains, b, index, d);
    assert IsOld(ds, OldKey(d)) && IsNew(ds, NewKey(d)) && !IsNew(ds, OldKey(d));
    DomainsMovedState(domains, b, index, pair, ds, OldKey(d));
    DomainsMovedState(domains, b, index, pair, ds, NewKey(d));
  }

  /** The old principal keeps no role in the pair's domains exactly when the plan named all of
      its roles there. */
  ghost predicate AllRolesPlanned(b: Bindings.Table, ds: seq<DomainTuple>, pair: PairId) {
    forall k :: (Bindings.Enabled(b, k) && k.principal == pair.oldPrincipal && exists d :: d in ds && d.domain == k.domain) ==> IsOld(ds, k)
  }

  lemma NoneRemaining(domains: map<Uuid, Domain>, b: Bindings.Table, index: nat, pair: PairId, ds: seq<DomainTuple>)
    requires OfPair(ds, pair) && DomainsAccepted(domains, b, index, ds)
    ensures |Remaining(DomainsMoved(b, index, ds), ds, pair)| == 0 <==> AllRolesPlanned(b, ds, pair)
  {
    var u := DomainsMoved(b, index, ds);
    var left := Remaining(u, ds, pair);
    assert ds != [] ==> pair.oldPrincipal != pair.newPrincipal by {
      if ds != [] {
        assert ds[0] in ds;
      }
    }
    forall k ensures k in left <==> Bindings.Enabled(b, k) && !IsOld(ds, k) && k.principal == pair.oldPrincipal && exists d :: d in ds && d.domain == k.domain {
      DomainsMovedState(domains, b, index, pair, ds, k);
    }
    if left == {} {
      forall k | Bindings.Enabled(b, k) && k.principal == pair.oldPrincipal && exists d :: d in ds && d.domain == k.domain ensures IsOld(ds, k) {
        assert k !in left;
      }
    }
  }

  lemma MoveConserves(domains: map<Uuid, Domain>, b: Bindings.Table, index: nat, d: DomainTuple, domain: Uuid,
      role: string)
    requires DomainAccepted(domains, b, index, d) && Bindings.SingleOwner(b) && Bindings.DistinctIds(b)
    ensures |Bindings.Holders(DomainMoved(b, index, d), domain, role)| == |Bindings.Holders(b, domain, role)|
    ensures Bindings.SingleOwner(DomainMoved(b, index, d)) && Bindings.DistinctIds(DomainMoved(b, index, d))
  {
    hide Bindings.Holders;
    Bindings.MoveHolders(b, OldKey(d), NewKey(d), BindingId(index, d), domain, role);
    Bindings.MoveKeepsSingleOwner(b, OldKey(d), NewKey(d), BindingId(index, d));
    Bindings.MoveKeepsDistinctIds(b, OldKey(d), NewKey(d), BindingId(index, d));
  }

  /** Conservation: no move changes how many enabled bindings a (domain, role) has; the schema's
      indexes keep holding. */
  lemma {:induction false} DomainsConserve(domains: map<Uuid, Domain>, b: Bindings.Table, index: nat,
      ds: seq<DomainTuple>, domain: Uuid, role: string)
    requires DomainsAccepted(domains, b, index, ds) && Bindings.SingleOwner(b) && Bindings.DistinctIds(b)
    ensures |Bindings.Holders(DomainsMoved(b, index, ds), domain, role)| == |Bindings.Holders(b, domain, role)|
    ensures Bindings.SingleOwner(DomainsMoved(b, index, ds)) && Bindings.DistinctIds(DomainsMoved(b, index, ds))
    decreases |ds|
  {
    hide Bindings.Holders, Bindings.SingleOwner, Bindings.DistinctIds, DomainAccepted, DomainMoved;
    if ds != [] {
      var d := ds[0];
      MoveConserves(domains, b, index, d, domain, role);
      DomainsConserve(domains, DomainMoved(b, index, d), index, ds[1..], domain, role);
    }
  }

  /** A tuple of other principals is seen in the same state before and after. */
  lemma OtherTupleUnmoved(domains: map<Uuid, Domain>, b: Bindings.Table, index: nat, pair: PairId,
      ds: seq<DomainTuple>, d: DomainTuple)
    requires OfPair(ds, pair) && DomainsAccepted(domains, b, index, ds)
    requires {d.oldPrincipal, d.newPrincipal} !! {pair.oldPrincipal, pair.newPrincipal}
    ensures DomainState(domains, DomainsMoved(b, index, ds), d) == DomainState(domains, b, d)
    decreases |ds|
  {
    if ds != [] {
      MovedState(b, index, ds[0], OldKey(d));
      MovedState(b, index, ds[0], NewKey(d));
      OtherTupleUnmoved(domains, DomainMoved(b, index, ds[0]), index, pair, ds[1..], d);
    }
  }
}
