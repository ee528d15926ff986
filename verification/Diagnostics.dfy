/** Graph-rejection diagnostics: the bounded, ordered projection of a validator's error codes,
    and its decoder, which trusts nothing it reads back. */
module Diagnostics {
  import opened Identifiers
  import Scope

  const REJECTED := "GRAPH_VALIDATION_REJECTED"
  const MAX_RULES: nat := 32

  /** The static corrections; the compiled table is any table with the fallback and no empty code. */
  type Catalog = map<string, string>

  predicate CatalogOk(c: Catalog) {
    REJECTED in c && "" !in c
  }

  datatype Rule = Rule(code: string, message: string)
  datatype Details = Details(errors: seq<Rule>, truncated: bool)

  function SafeCode(c: Catalog, code: string): string {
    if code in c then code else REJECTED
  }

  // ---------------------------------------------------------------------------
  // The ordered set of codes
  // ---------------------------------------------------------------------------

  /** BTreeSet::insert on a strictly ascending sequence. */
  function Insert(codes: seq<string>, code: string): (r: seq<string>)
    requires Scope.Ascending(codes)
    ensures Scope.Ascending(r) && forall x :: x in r <==> x in codes || x == code
  {
    if codes == [] then [code]
    else if code == codes[0] then codes
    else if Scope.Less(code, codes[0]) then
      InsertFront(codes, code);
      [code] + codes
    else
      Scope.LessTotal(code, codes[0]);
      AscendingTail(codes);
      var rest := Insert(codes[1..], code);
      InsertLater(codes, code, rest);
      [codes[0]] + rest
  }

  lemma AscendingTail(codes: seq<string>)
    requires Scope.Ascending(codes) && codes != []
    ensures Scope.Ascending(codes[1..]) && forall x :: x in codes[1..] ==> Scope.Less(codes[0], x)
    ensures forall x :: x in codes <==> x == codes[0] || x in codes[1..]
  {
    assert codes == [codes[0]] + codes[1..];
    assert forall k :: 0 <= k < |codes[1..]| ==> codes[1..][k] == codes[k + 1];
  }

  lemma AscendingCons(first: string, rest: seq<string>)
    requires Scope.Ascending(rest) && forall x :: x in rest ==> Scope.Less(first, x)
    ensures Scope.Ascending([first] + rest)
  {
    var all := [first] + rest;
    forall j, k | 0 <= j < k < |all| ensures Scope.Less(all[j], all[k]) {
      assert all[k] == rest[k - 1] && rest[k - 1] in rest;
      if j > 0 {
        assert all[j] == rest[j - 1];
      }
    }
  }

  lemma InsertFront(codes: seq<string>, code: string)
    requires Scope.Ascending(codes) && codes != [] && Scope.Less(code, codes[0])
    ensures Scope.Ascending([code] + codes)
  {
    AscendingTail(codes);
    forall x | x in codes ensures Scope.Less(code, x) {
      if x != codes[0] {
        Scope.LessTransitive(code, codes[0], x);
      }
    }
    AscendingCons(code, codes);
  }

  lemma InsertLater(codes: seq<string>, code: string, rest: seq<string>)
    requires Scope.Ascending(codes) && codes != [] && Scope.Less(codes[0], code)
    requires Scope.Ascending(rest) && forall x :: x in rest <==> x in codes[1..] || x == code
    ensures Scope.Ascending([codes[0]] + rest) && forall x :: x in [codes[0]] + rest <==> x in codes || x == code
  {
    AscendingTail(codes);
    AscendingCons(codes[0], rest);
  }

  function SafeSet(c: Catalog, errors: seq<string>): set<string> {
    set k | 0 <= k < |errors| :: SafeCode(c, errors[k])
  }

  /** The set collected from the validator's errors, in order. */
  function Collect(c: Catalog, errors: seq<string>): (r: seq<string>)
    ensures Scope.Ascending(r) && forall x :: x in r <==> x in SafeSet(c, errors)
  {
    if errors == [] then []
    else
      var init, last := errors[..|errors| - 1], errors[|errors| - 1];
      assert errors == init + [last];
      assert SafeSet(c, errors) == SafeSet(c, init) + {SafeCode(c, last)};
      Insert(Collect(c, init), SafeCode(c, last))
  }

  function Codes(c: Catalog, errors: seq<string>): (r: seq<string>)
    ensures Scope.Ascending(r) && r != []
  {
    var r := Collect(c, errors);
    if r == [] then [REJECTED] else r
  }

  function Rules(c: Catalog, codes: seq<string>): (r: seq<Rule>)
    requires forall k :: 0 <= k < |codes| ==> codes[k] in c
    ensures |r| == |codes| && forall k :: 0 <= k < |codes| ==> r[k] == Rule(codes[k], c[codes[k]])
  {
    seq(|codes|, k requires 0 <= k < |codes| => Rule(codes[k], c[codes[k]]))
  }

  lemma CodesKnown(c: Catalog, errors: seq<string>)
    requires CatalogOk(c)
    ensures forall k :: 0 <= k < |Codes(c, errors)| ==> Codes(c, errors)[k] in c
  {
    var r := Codes(c, errors);
    forall k | 0 <= k < |r| ensures r[k] in c {
      assert r[k] in r;
    }
  }

  function Take(codes: seq<string>): seq<string> {
    if |codes| <= MAX_RULES then codes else codes[..MAX_RULES]
  }

  /** GraphDiagnostics::project */
  function Project(c: Catalog, errors: seq<string>): (d: Details)
    requires CatalogOk(c)
  {
    CodesKnown(c, errors);
    var codes := Codes(c, errors);
    Details(Rules(c, Take(codes)), |codes| > MAX_RULES)
  }

  // ---------------------------------------------------------------------------
  // What the projection keeps
  // ---------------------------------------------------------------------------

  /** The projection depends on the set of safe codes only: order and repetition of the
      validator's errors, and every unknown code's text, are invisible. */
  lemma ProjectionIgnoresOrder(c: Catalog, a: seq<string>, b: seq<string>)
    requires CatalogOk(c) && SafeSet(c, a) == SafeSet(c, b)
    ensures Project(c, a) == Project(c, b)
  {
    Scope.AscendingUnique(Collect(c, a), Collect(c, b));
  }

  function CodesOf(d: Details): (r: seq<string>)
    ensures |r| == |d.errors| && forall k :: 0 <= k < |r| ==> r[k] == d.errors[k].code
  {
    seq(|d.errors|, k requires 0 <= k < |d.errors| => d.errors[k].code)
  }

  lemma ProjectedCodes(c: Catalog, errors: seq<string>)
    requires CatalogOk(c)
    ensures CodesOf(Project(c, errors)) == Take(Codes(c, errors))
  {
  }

  /** It keeps the smallest distinct safe codes, up to 32, and says exactly when it left some out. */
  lemma KeepsTheSmallest(c: Catalog, errors: seq<string>)
    requires CatalogOk(c) && errors != []
    ensures var d := Project(c, errors);
            var kept := CodesOf(d);
            && 1 <= |kept| <= MAX_RULES && (d.truncated ==> |kept| == MAX_RULES) && Scope.Ascending(kept)
            && (forall x :: x in kept ==> x in SafeSet(c, errors))
            && (d.truncated <==> exists y :: y in SafeSet(c, errors) && y !in kept)
            && (forall x, y :: x in kept && y in SafeSet(c, errors) && y !in kept ==> Scope.Less(x, y))
  {
    hide Project, Collect;
    var d, codes := Project(c, errors), Codes(c, errors);
    var kept := Take(codes);
    ProjectedCodes(c, errors);
    CodesAreSafe(c, errors);
    ProjectTruncates(c, errors);
    if |codes| > MAX_RULES {
      AscendingDistinct(codes);
      assert codes[MAX_RULES] in codes && codes[MAX_RULES] !in kept;
    }
    assert forall i :: 0 <= i < |kept| ==> kept[i] == codes[i] && kept[i] in kept;
    forall x, y | x in kept && y in codes && y !in kept ensures Scope.Less(x, y) {
      var k :| 0 <= k < |kept| && kept[k] == x;
      var j :| 0 <= j < |codes| && codes[j] == y;
    }
  }

  lemma ProjectTruncates(c: Catalog, errors: seq<string>)
    requires CatalogOk(c)
    ensures Project(c, errors).truncated <==> |Codes(c, errors)| > MAX_RULES
  {
  }

  lemma CodesAreSafe(c: Catalog, errors: seq<string>)
    requires errors != []
    ensures forall x :: x in Codes(c, errors) <==> x in SafeSet(c, errors)
  {
    assert SafeCode(c, errors[0]) in SafeSet(c, errors);
  }

  lemma AscendingDistinct(codes: seq<string>)
    requires Scope.Ascending(codes)
    ensures forall j, k :: 0 <= j < k < |codes| ==> codes[j] != codes[k]
  {
    forall j, k | 0 <= j < k < |codes| ensures codes[j] != codes[k] {
      Scope.LessIrreflexive(codes[j]);
    }
  }

  // ---------------------------------------------------------------------------
  // The decoder
  // ---------------------------------------------------------------------------

  /** The closed shape a stored projection may have. */
  predicate Admissible(c: Catalog, d: Details) {
    && 1 <= |d.errors| <= MAX_RULES && (d.truncated ==> |d.errors| == MAX_RULES)
    && (forall k :: 0 <= k < |d.errors| ==> d.errors[k].code in c && c[d.errors[k].code] == d.errors[k].message)
    && (forall j, k :: 0 <= j < k < |d.errors| ==> Scope.Less(d.errors[j].code, d.errors[k].code))
  }

  /** GraphDiagnostics::from_receipt, whose loop only compares neighbours. */
  method FromReceipt(c: Catalog, d: Details) returns (r: Option<Details>)
    requires CatalogOk(c)
    ensures r == if Admissible(c, d) then Some(d) else None
  {
    if |d.errors| == 0 || |d.errors| > MAX_RULES || (d.truncated && |d.errors| != MAX_RULES) {
      return None;
    }
    var previous := "";
    for i := 0 to |d.errors|
      invariant previous == if i == 0 then "" else d.errors[i - 1].code
      invariant forall k :: 0 <= k < i ==> d.errors[k].code in c && c[d.errors[k].code] == d.errors[k].message
      invariant forall j, k :: 0 <= j < k < i ==> Scope.Less(d.errors[j].code, d.errors[k].code)
    {
      var rule := d.errors[i];
      if !Scope.Less(previous, rule.code) {
        assert i == 0 ==> rule.code == "";
        return None;
      }
      if rule.code !in c || c[rule.code] != rule.message {
        return None;
      }
      forall j | 0 <= j < i ensures Scope.Less(d.errors[j].code, rule.code) {
        if j < i - 1 {
          Scope.LessTransitive(d.errors[j].code, previous, rule.code);
        }
      }
      previous := rule.code;
    }
    return Some(d);
  }

  /** The decoder gives back every projection. */
  lemma ProjectionAdmissible(c: Catalog, errors: seq<string>)
    requires CatalogOk(c)
    ensures Admissible(c, Project(c, errors))
  {
    CodesKnown(c, errors);
  }

  lemma SafeIsItself(c: Catalog, codes: seq<string>)
    requires forall k :: 0 <= k < |codes| ==> codes[k] in c
    ensures forall x :: x in SafeSet(c, codes) <==> x in codes
  {
    forall x | x in codes ensures x in SafeSet(c, codes) {
      var k :| 0 <= k < |codes| && codes[k] == x;
      assert SafeCode(c, codes[k]) in SafeSet(c, codes);
    }
  }

  /** And an admissible value that is not truncated is the projection of its own codes. */
  lemma AdmissibleIsProjection(c: Catalog, d: Details)
    requires CatalogOk(c) && Admissible(c, d) && !d.truncated
    ensures Project(c, CodesOf(d)) == d
  {
    var codes := CodesOf(d);
    assert forall k :: 0 <= k < |codes| ==> SafeCode(c, codes[k]) == codes[k];
    SafeIsItself(c, codes);
    Scope.AscendingUnique(Collect(c, codes), codes);
    assert Rules(c, Take(codes)) == d.errors;
  }
}
