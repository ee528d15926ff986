/** The domain_role_bindings table: one row per (domain, principal, role), as the unique
    index idx_drb_domain_principal_role demands. */
module Bindings {
  import opened Identifiers

  const DOMAIN_OWNER := "DOMAIN_OWNER"
  const DOMAIN_MEMBER := "DOMAIN_MEMBER"

  datatype Key = Key(domain: Uuid, principal: Uuid, role: string)
  datatype Binding = Binding(id: Uuid, enabled: bool)
  type Table = map<Key, Binding>

  predicate Enabled(t: Table, k: Key) {
    k in t && t[k].enabled
  }

  /** The principals holding an enabled binding of `role` in `domain`. */
  function Holders(t: Table, domain: Uuid, role: string): (holders: set<Uuid>)
    ensures forall p :: p in holders <==> Enabled(t, Key(domain, p, role))
  {
    set k | k in t && k.domain == domain && k.role == role && t[k].enabled :: k.principal
  }

  /** The partial unique index idx_drb_single_owner. */
  ghost predicate SingleOwner(t: Table) {
    forall a, b :: (Enabled(t, a) && Enabled(t, b) && a.domain == b.domain && a.role == b.role == DOMAIN_OWNER) ==> a == b
  }

  /** binding_id is the primary key. */
  ghost predicate DistinctIds(t: Table) {
    forall a, b :: a in t && b in t && t[a].id == t[b].id ==> a == b
  }

  /** Disable `from`, then insert-or-re-enable `to`; `newId` is used only for a new row. */
  function Move(t: Table, from: Key, to: Key, newId: Uuid): Table
    requires from in t
  {
    var disabled := t[from := t[from].(enabled := false)];
    disabled[to := if to in disabled then disabled[to].(enabled := true) else Binding(newId, true)]
  }

  /** Which bindings are enabled after a move. */
  lemma MoveEnabled(t: Table, from: Key, to: Key, newId: Uuid, k: Key)
    requires Enabled(t, from) && from != to
    ensures Enabled(Move(t, from, to, newId), k) <==> k == to || (k != from && Enabled(t, k))
  {
  }

  lemma HolderCount(before: set<Uuid>, after: set<Uuid>, p: Uuid, q: Uuid)
    requires p in before && q !in before && after == before - {p} + {q}
    ensures |after| == |before|
  {
    assert |before - {p}| == |before| - 1;
  }

  /** A move replaces one holder by another and touches no other (domain, role): the number
      of enabled bindings of every role in every domain is conserved. */
  lemma MoveHolders(t: Table, from: Key, to: Key, newId: Uuid, domain: Uuid, role: string)
    requires Enabled(t, from) && !Enabled(t, to)
    requires from.domain == to.domain && from.role == to.role
    ensures Holders(Move(t, from, to, newId), domain, role)
         == if domain == from.domain && role == from.role
            then Holders(t, domain, role) - {from.principal} + {to.principal}
            else Holders(t, domain, role)
    ensures |Holders(Move(t, from, to, newId), domain, role)| == |Holders(t, domain, role)|
  {
    var before, after := Holders(t, domain, role), Holders(Move(t, from, to, newId), domain, role);
    forall p
      ensures p in after <==> Key(domain, p, role) == to || (Key(domain, p, role) != from && p in before)
    {
      MoveEnabled(t, from, to, newId, Key(domain, p, role));
    }
    if domain == from.domain && role == from.role {
      assert after == before - {from.principal} + {to.principal};
      assert Key(domain, from.principal, role) == from && Key(domain, to.principal, role) == to;
      HolderCount(before, after, from.principal, to.principal);
    } else {
      assert after == before;
    }
  }

  /** Moving the owner's binding keeps at most one enabled owner per domain, so the partial
      unique index never rejects a move. */
  lemma MoveKeepsSingleOwner(t: Table, from: Key, to: Key, newId: Uuid)
    requires SingleOwner(t) && Enabled(t, from)
    requires from.domain == to.domain && from.role == to.role
    ensures SingleOwner(Move(t, from, to, newId))
  {
  }

  /** The primary key stays unique if a new row's id is fresh. */
  lemma MoveKeepsDistinctIds(t: Table, from: Key, to: Key, newId: Uuid)
    requires DistinctIds(t) && from in t
    requires to in t || forall k :: k in t ==> t[k].id != newId
    ensures DistinctIds(Move(t, from, to, newId))
  {
  }
}
