/** The canonical OAuth scope encoding: which strings are accepted, and that each set of scope
    items has exactly one accepted encoding. */
module Scope {

  // ---------------------------------------------------------------------------
  // Byte order
  // ---------------------------------------------------------------------------

  /** Strict lexicographic order; on ASCII it is the unsigned byte order. */
  predicate Less(a: string, b: string) {
    b != "" && (a == "" || a[0] < b[0] || (a[0] == b[0] && Less(a[1..], b[1..])))
  }

  lemma {:induction false} LessIrreflexive(a: string)
    ensures !Less(a, a)
  {
    if a != "" {
      LessIrreflexive(a[1..]);
    }
  }

  lemma {:induction false} LessTransitive(a: string, b: string, c: string)
    requires Less(a, b) && Less(b, c)
    ensures Less(a, c)
  {
    if a != "" && a[0] == b[0] == c[0] {
      LessTransitive(a[1..], b[1..], c[1..]);
    }
  }

  lemma {:induction false} LessTotal(a: string, b: string)
    ensures a == b || Less(a, b) || Less(b, a)
  {
    if a != "" && b != "" && a[0] == b[0] {
      LessTotal(a[1..], b[1..]);
      assert a == [a[0]] + a[1..] && b == [b[0]] + b[1..];
    }
  }

  predicate Ascending(items: seq<string>) {
    forall j, k :: 0 <= j < k < |items| ==> Less(items[j], items[k])
  }

  /** Comparing neighbours is enough. */
  lemma {:induction false} NeighboursSuffice(items: seq<string>)
    requires forall k :: 0 < k < |items| ==> Less(items[k - 1], items[k])
    ensures Ascending(items)
    decreases |items|
  {
    if |items| > 1 {
      var init, last := items[..|items| - 1], |items| - 1;
      NeighboursSuffice(init);
      forall j | 0 <= j < last ensures Less(items[j], items[last]) {
        if j < last - 1 {
          assert Less(init[j], init[last - 1]);
          LessTransitive(items[j], items[last - 1], items[last]);
        }
      }
      forall j, k | 0 <= j < k < |items| ensures Less(items[j], items[k]) {
        if k < last {
          assert Less(init[j], init[k]);
        }
      }
    }
  }

  // ---------------------------------------------------------------------------
  // Splitting and joining on one space
  // ---------------------------------------------------------------------------

  predicate NoSpace(s: string) {
    ' ' !in s
  }

  /** str::split(' '): always at least one item. */
  function Split(s: string): (items: seq<string>)
    ensures items != [] && forall k :: 0 <= k < |items| ==> NoSpace(items[k])
  {
    if s == "" then [""]
    else
      var rest := Split(s[1..]);
      if s[0] == ' ' then [""] + rest else [[s[0]] + rest[0]] + rest[1..]
  }

  function Join(items: seq<string>): string
    requires items != []
  {
    if |items| == 1 then items[0] else items[0] + " " + Join(items[1..])
  }

  lemma {:induction false} JoinSplit(s: string)
    ensures Join(Split(s)) == s
  {
    if s != "" {
      JoinSplit(s[1..]);
      var rest := Split(s[1..]);
      if s[0] == ' ' {
        assert Join([""] + rest) == "" + " " + Join(([""] + rest)[1..]);
        assert ([""] + rest)[1..] == rest;
      } else {
        var items := [[s[0]] + rest[0]] + rest[1..];
        assert items[1..] == rest[1..];
        assert s == [s[0]] + s[1..];
      }
    }
  }

  lemma {:induction false} SplitJoin(items: seq<string>)
    requires items != [] && forall k :: 0 <= k < |items| ==> NoSpace(items[k])
    ensures Split(Join(items)) == items
    decreases |items|
  {
    if |items| == 1 {
      SplitWord(items[0]);
      assert items == [items[0]];
    } else {
      SplitJoin(items[1..]);
      SplitFirst(items[0], Join(items[1..]));
      assert items == [items[0]] + items[1..];
    }
  }

  lemma {:induction false} SplitWord(word: string)
    requires NoSpace(word)
    ensures Split(word) == [word]
  {
    if word != "" {
      SplitWord(word[1..]);
      assert [word[0]] + word[1..] == word;
    }
  }

  lemma {:induction false} SplitFirst(word: string, rest: string)
    requires NoSpace(word)
    ensures Split(word + " " + rest) == [word] + Split(rest)
  {
    var s := word + " " + rest;
    if word == "" {
      assert s == [' '] + rest && s[1..] == rest;
    } else {
      SplitFirst(word[1..], rest);
      assert s[0] == word[0] && s[1..] == word[1..] + " " + rest;
      assert [word[0]] + word[1..] == word;
    }
  }

  // ---------------------------------------------------------------------------
  // Scope items
  // ---------------------------------------------------------------------------

  predicate Lower(c: char) { 'a' <= c <= 'z' }
  predicate PrefixChar(c: char) { Lower(c) || '0' <= c <= '9' || c == '-' }
  predicate SuffixChar(c: char) { PrefixChar(c) || c == '.' || c == '_' }

  function FirstDot(item: string): (k: int)
    ensures -1 <= k < |item|
    ensures k >= 0 ==> item[k] == '.' && '.' !in item[..k]
    ensures k == -1 ==> '.' !in item
  {
    if item == "" then -1
    else if item[0] == '.' then 0
    else
      var rest := FirstDot(item[1..]);
      assert rest >= 0 ==> item[..rest + 1] == [item[0]] + item[1..][..rest];
      if rest == -1 then -1 else rest + 1
  }

  /** is_valid_scope_item: split at the first dot, then check both halves. */
  predicate ItemValid(item: string) {
    var dot := FirstDot(item);
    && dot != -1
    && var prefix, suffix := item[..dot], item[dot + 1..];
       && prefix != "" && suffix != ""
       && Lower(prefix[0]) && (forall k :: 0 <= k < |prefix| ==> PrefixChar(prefix[k]))
       && Lower(suffix[0]) && (forall k :: 0 <= k < |suffix| ==> SuffixChar(suffix[k]))
  }

  predicate Word(s: string, p: char -> bool) {
    s != "" && Lower(s[0]) && forall k :: 1 <= k < |s| ==> p(s[k])
  }

  /** The documented regular expression ^[a-z][a-z0-9-]*\.[a-z][a-z0-9._-]*$, read as a regular
      expression: some split into a word, a dot and a word. */
  ghost predicate Grammar(item: string) {
    exists a: string, b: string :: item == a + "." + b && Word(a, PrefixChar) && Word(b, SuffixChar)
  }

  /** The first dot of a matching item is the dot between the words. */
  lemma DotBetween(item: string, a: string, b: string)
    requires item == a + "." + b && Word(a, PrefixChar)
    ensures FirstDot(item) == |a| && item[..|a|] == a && item[|a| + 1..] == b
  {
    var dot := FirstDot(item);
    assert item[|a|] == '.';
    forall k | 0 <= k < dot ensures item[k] != '.' {
      assert item[..dot][k] == item[k];
    }
    forall k | 0 <= k < |a| ensures item[k] != '.' {
      assert item[k] == a[k] && PrefixChar(a[k]);
    }
  }

  lemma ValidMatches(item: string)
    requires ItemValid(item)
    ensures Grammar(item)
  {
    var dot := FirstDot(item);
    var a, b := item[..dot], item[dot + 1..];
    assert item == a + "." + b && Word(a, PrefixChar) && Word(b, SuffixChar);
  }

  lemma MatchesValid(item: string, a: string, b: string)
    requires item == a + "." + b && Word(a, PrefixChar) && Word(b, SuffixChar)
    ensures ItemValid(item)
  {
    DotBetween(item, a, b);
  }

  /** Splitting at the first dot decides the regular expression. */
  lemma ItemValidExactly(item: string)
    ensures ItemValid(item) <==> Grammar(item)
    ensures forall c :: PrefixChar(c) <==> var n := c as int; 97 <= n <= 122 || 48 <= n <= 57 || n == 45
    ensures forall c :: SuffixChar(c) <==> var n := c as int; 97 <= n <= 122 || 48 <= n <= 57 || n == 45 || n == 46 || n == 95
  {
    hide ItemValid, Word;
    if ItemValid(item) {
      ValidMatches(item);
    }
    if a: string, b: string :| item == a + "." + b && Word(a, PrefixChar) && Word(b, SuffixChar) {
      MatchesValid(item, a, b);
    }
  }

  lemma GrammarChars(item: string)
    requires Grammar(item)
    ensures item != "" && NoSpace(item) && Ascii(item) && item[0] != ' '
  {
    var a: string, b: string :| item == a + "." + b && Word(a, PrefixChar) && Word(b, SuffixChar);
    forall k | 0 <= k < |item| ensures item[k] != ' ' && item[k] < 128 as char {
      if k < |a| {
        assert item[k] == a[k];
      } else if k > |a| {
        assert item[k] == b[k - |a| - 1];
      }
    }
  }

  // ---------------------------------------------------------------------------
  // The whole scope string
  // ---------------------------------------------------------------------------

  predicate Ascii(s: string) {
    forall k :: 0 <= k < |s| ==> s[k] < 128 as char
  }

  /** validate_v1_scope, check by check. */
  predicate Accepted(scope: string) {
    && scope != "" && Ascii(scope)
    && scope[0] != ' ' && scope[|scope| - 1] != ' '
    && var items := Split(scope);
       && (forall k :: 0 <= k < |items| ==> items[k] != "")
       && |set i | i in items| == |items|
       && (forall k :: 0 < k < |items| ==> Less(items[k - 1], items[k]))
       && (forall k :: 0 <= k < |items| ==> ItemValid(items[k]))
  }

  /** A canonical list of items. */
  ghost predicate Canonical(items: seq<string>) {
    items != [] && Ascending(items) && forall k :: 0 <= k < |items| ==> Grammar(items[k])
  }

  lemma {:induction false} DistinctCount(items: seq<string>)
    requires forall j, k :: 0 <= j < k < |items| ==> items[j] != items[k]
    ensures |set i | i in items| == |items|
    decreases |items|
  {
    if items != [] {
      var init, last := items[..|items| - 1], items[|items| - 1];
      DistinctCount(init);
      assert items == init + [last] && last !in init;
      assert (set i | i in items) == (set i | i in init) + {last};
    }
  }

  lemma {:induction false} JoinEnds(items: seq<string>)
    requires Canonical(items)
    ensures var s := Join(items); s != "" && Ascii(s) && s[0] != ' ' && s[|s| - 1] != ' '
    decreases |items|
  {
    GrammarChars(items[0]);
    if |items| > 1 {
      assert Ascending(items[1..]) by {
        forall j, k | 0 <= j < k < |items[1..]| ensures Less(items[1..][j], items[1..][k]) {
          assert Less(items[j + 1], items[k + 1]);
        }
      }
      JoinEnds(items[1..]);
    }
  }

  /** A string is accepted exactly when it is the single-space join of a non-empty, strictly
      ascending list of items of the documented grammar. */
  lemma AcceptedExactly(scope: string)
    ensures Accepted(scope) <==> exists items: seq<string> :: Canonical(items) && scope == Join(items)
  {
    if Accepted(scope) {
      var items := Split(scope);
      JoinSplit(scope);
      NeighboursSuffice(items);
      forall k | 0 <= k < |items| ensures Grammar(items[k]) {
        ItemValidExactly(items[k]);
      }
      assert Canonical(items) && scope == Join(items);
    }
    if items: seq<string> :| Canonical(items) && scope == Join(items) {
      forall k | 0 <= k < |items| ensures NoSpace(items[k]) && items[k] != "" && ItemValid(items[k]) {
        GrammarChars(items[k]);
        ItemValidExactly(items[k]);
      }
      SplitJoin(items);
      JoinEnds(items);
      forall j, k | 0 <= j < k < |items| ensures items[j] != items[k] {
        assert Less(items[j], items[k]);
        LessIrreflexive(items[j]);
      }
      DistinctCount(items);
    }
  }

  /** Two ascending lists with the same items are the same list. */
  lemma {:induction false} AscendingUnique(a: seq<string>, b: seq<string>)
    requires Ascending(a) && Ascending(b)
    requires forall i :: i in a <==> i in b
    ensures a == b
    decreases |a|
  {
    if a == [] {
      assert forall k :: 0 <= k < |b| ==> b[k] in b;
    } else {
      assert a[0] in b && a[0] in a;
      assert b != [] && b[0] in a;
      var j :| 0 <= j < |b| && b[j] == a[0];
      var k :| 0 <= k < |a| && a[k] == b[0];
      if j > 0 && k > 0 {
        LessTransitive(b[0], b[j], b[0]);
        LessIrreflexive(b[0]);
      }
      assert a[0] == b[0];
      forall i ensures i in a[1..] <==> i in b[1..] {
        TailItems(a, i);
        TailItems(b, i);
      }
      assert Ascending(a[1..]) && Ascending(b[1..]) by {
        assert forall x, y :: 0 <= x < y < |a[1..]| ==> a[1..][x] == a[x + 1] && a[1..][y] == a[y + 1];
        assert forall x, y :: 0 <= x < y < |b[1..]| ==> b[1..][x] == b[x + 1] && b[1..][y] == b[y + 1];
      }
      AscendingUnique(a[1..], b[1..]);
      assert a == [a[0]] + a[1..] && b == [b[0]] + b[1..];
    }
  }

  lemma TailItems(a: seq<string>, i: string)
    requires Ascending(a) && a != []
    ensures i in a[1..] <==> i in a && i != a[0]
  {
    if i in a[1..] {
      var k :| 0 <= k < |a[1..]| && a[1..][k] == i;
      assert Less(a[0], a[k + 1]);
      LessIrreflexive(a[0]);
    }
    if i in a && i != a[0] {
      var k :| 0 <= k < |a| && a[k] == i;
      assert a[1..][k - 1] == i;
    }
  }

  /** The set of scopes the verifier builds from an accepted string. */
  function ScopeSet(s: string): (scopes: set<string>)
    ensures forall i :: i in scopes <==> i in Split(s)
  {
    set i | i in Split(s)
  }

  /** The encoding is canonical: two accepted strings that decode to the same set of scopes are
      the same string. */
  lemma EncodingUnique(s: string, r: string)
    requires Accepted(s) && Accepted(r)
    requires ScopeSet(s) == ScopeSet(r)
    ensures s == r
  {
    NeighboursSuffice(Split(s));
    NeighboursSuffice(Split(r));
    AscendingUnique(Split(s), Split(r));
    JoinSplit(s);
    JoinSplit(r);
  }
}
