/** The placeholder rewriting loop: find the first `${name}`, replace every occurrence of it,
    start over. */
module Placeholders {
  import opened Identifiers

  datatype Outcome = Ok(text: string) | UnknownPlaceholder(name: string) | EmptyPlaceholder(name: string)

  type Values = map<string, string>

  // ---------------------------------------------------------------------------
  // Searching and replacing
  // ---------------------------------------------------------------------------

  predicate OpensAt(s: string, k: nat) {
    k + 1 < |s| && s[k] == '$' && s[k + 1] == '{'
  }

  /** str::find("${") */
  function FindOpen(s: string): (p: Option<nat>)
    ensures p.Some? ==> OpensAt(s, p.value) && forall k :: 0 <= k < p.value ==> !OpensAt(s, k)
    ensures p.None? ==> forall k: nat :: !OpensAt(s, k)
  {
    if |s| < 2 then None
    else if OpensAt(s, 0) then Some(0)
    else
      var r := FindOpen(s[1..]);
      assert forall k: nat :: OpensAt(s, k + 1) <==> OpensAt(s[1..], k);
      assert forall k: nat :: k > 0 && OpensAt(s, k) ==> OpensAt(s[1..], k - 1);
      if r.None? then None else Some(r.value + 1)
  }

  /** str::find('}') */
  function FindClose(s: string): (p: Option<nat>)
    ensures p.Some? ==> p.value < |s| && s[p.value] == '}' && '}' !in s[..p.value]
    ensures p.None? ==> '}' !in s
  {
    if s == "" then None
    else if s[0] == '}' then Some(0)
    else
      var r := FindClose(s[1..]);
      assert r.Some? ==> s[..r.value + 1] == [s[0]] + s[1..][..r.value];
      if r.None? then None else Some(r.value + 1)
  }

  predicate MatchesAt(s: string, k: nat, pattern: string) {
    k + |pattern| <= |s| && s[k..k + |pattern|] == pattern
  }

  /** str::replace: every non-overlapping occurrence, left to right. */
  function ReplaceAll(s: string, pattern: string, value: string): string
    requires pattern != ""
    decreases |s|
  {
    if |s| < |pattern| then s
    else if MatchesAt(s, 0, pattern) then value + ReplaceAll(s[|pattern|..], pattern, value)
    else [s[0]] + ReplaceAll(s[1..], pattern, value)
  }

  function Hole(name: string): string {
    "${" + name + "}"
  }

  // ---------------------------------------------------------------------------
  // Termination
  // ---------------------------------------------------------------------------

  function Dollars(s: string): nat {
    if s == "" then 0 else (if s[0] == '$' then 1 else 0) + Dollars(s[1..])
  }

  lemma {:induction false} DollarsConcat(a: string, b: string)
    ensures Dollars(a + b) == Dollars(a) + Dollars(b)
  {
    if a == "" {
      assert a + b == b;
    } else {
      DollarsConcat(a[1..], b);
      assert (a + b)[1..] == a[1..] + b;
    }
  }

  lemma {:induction false} DollarFreeCount(s: string)
    requires '$' !in s
    ensures Dollars(s) == 0
  {
    if s != "" {
      DollarFreeCount(s[1..]);
    }
  }

  /** Replacing never adds a dollar sign if the value has none. */
  lemma {:induction false} ReplaceNeverAdds(s: string, pattern: string, value: string)
    requires pattern != "" && '$' !in value
    ensures Dollars(ReplaceAll(s, pattern, value)) <= Dollars(s)
    decreases |s|
  {
    if |s| >= |pattern| {
      if MatchesAt(s, 0, pattern) {
        var rest := s[|pattern|..];
        ReplaceNeverAdds(rest, pattern, value);
        DollarFreeCount(value);
        DollarsConcat(value, ReplaceAll(rest, pattern, value));
        assert s == pattern + rest;
        DollarsConcat(pattern, rest);
      } else {
        ReplaceNeverAdds(s[1..], pattern, value);
      }
    }
  }

  /** If the pattern, which starts with a dollar sign, occurs, the number of dollar signs drops. */
  lemma {:induction false} ReplaceDrops(s: string, pattern: string, value: string, at: nat)
    requires pattern != "" && pattern[0] == '$' && '$' !in value
    requires MatchesAt(s, at, pattern)
    ensures Dollars(ReplaceAll(s, pattern, value)) < Dollars(s)
    decreases |s|
  {
    if MatchesAt(s, 0, pattern) {
      var rest := s[|pattern|..];
      ReplaceNeverAdds(rest, pattern, value);
      DollarFreeCount(value);
      DollarsConcat(value, ReplaceAll(rest, pattern, value));
      assert s == pattern + rest;
      DollarsConcat(pattern, rest);
    } else {
      assert at > 0;
      assert s[1..][at - 1..at - 1 + |pattern|] == s[at..at + |pattern|];
      ReplaceDrops(s[1..], pattern, value, at - 1);
    }
  }

  predicate DollarFree(values: Values) {
    forall n :: n in values ==> '$' !in values[n]
  }

  // ---------------------------------------------------------------------------
  // The loop
  // ---------------------------------------------------------------------------

  /** One iteration. */
  datatype Step = Stop(outcome: Outcome) | Again(text: string)

  function Iterate(s: string, values: Values): Step {
    var open := FindOpen(s);
    if open.None? then Stop(Ok(s))
    else
      var close := FindClose(s[open.value + 2..]);
      if close.None? then Stop(Ok(s))
      else
        var name := s[open.value + 2..open.value + 2 + close.value];
        if name !in values then Stop(UnknownPlaceholder(name))
        else if values[name] == "" then Stop(EmptyPlaceholder(name))
        else Again(ReplaceAll(s, Hole(name), values[name]))
  }

  lemma HoleMatches(s: string, open: nat, close: nat)
    requires OpensAt(s, open) && open + 2 + close < |s| && s[open + 2 + close] == '}'
    ensures MatchesAt(s, open, Hole(s[open + 2..open + 2 + close]))
  {
    var p := Hole(s[open + 2..open + 2 + close]);
    assert |p| == close + 3;
    forall k | 0 <= k < |p| ensures s[open..open + |p|][k] == p[k] {
    }
  }

  /** The measure of the loop: with values free of dollar signs, their number strictly drops. */
  lemma IterationDrops(s: string, values: Values)
    requires DollarFree(values) && Iterate(s, values).Again?
    ensures Dollars(Iterate(s, values).text) < Dollars(s)
  {
    var open := FindOpen(s).value;
    var close := FindClose(s[open + 2..]).value;
    var name := s[open + 2..open + 2 + close];
    HoleMatches(s, open, close);
    ReplaceDrops(s, Hole(name), values[name], open);
  }

  function Resolve(s: string, values: Values): Outcome
    requires DollarFree(values)
    decreases Dollars(s)
  {
    match Iterate(s, values)
    case Stop(o) => o
    case Again(t) => IterationDrops(s, values); Resolve(t, values)
  }

  /** The caller guarantees DollarFree: every value parsed as a UUID. */
  method ResolvePlaceholders(input: string, values: Values) returns (outcome: Outcome)
    requires DollarFree(values)
    ensures outcome == Resolve(input, values)
  {
    hide ReplaceAll, MatchesAt, DollarFree;
    var result := input;
    while true
      invariant Resolve(result, values) == Resolve(input, values)
      decreases Dollars(result)
    {
      var open := FindOpen(result);
      if open.None? {
        return Ok(result);
      }
      var close := FindClose(result[open.value + 2..]);
      if close.None? {
        return Ok(result);
      }
      var name := result[open.value + 2..open.value + 2 + close.value];
      if name !in values {
        return UnknownPlaceholder(name);
      }
      if values[name] == "" {
        return EmptyPlaceholder(name);
      }
      IterationDrops(result, values);
      result := ReplaceAll(result, Hole(name), values[name]);
    }
  }

  /** Without the guarantee the loop can run for ever: a value that contains its own placeholder
      makes an iteration reproduce its input. */
  lemma SelfReferenceLoops()
    ensures exists s, values :: Iterate(s, values) == Again(s)
  {
    var s := Hole("A");
    var values := map["A" := s];
    assert s[..|s|] == s && s[|s|..] == "";
    assert FindOpen(s).value == 0 by {
      assert OpensAt(s, 0);
    }
    assert s[2..] == "A}" && s[2..][1..] == "}";
    assert s[2..3] == "A";
    assert ReplaceAll(s, Hole("A"), s) == s + ReplaceAll("", Hole("A"), s);
    assert Iterate(s, values) == Again(s);
  }

  /** What an Ok result looks like: no placeholder opens in it, or the first that opens is never
      closed. */
  lemma {:induction false} OkIsFinished(s: string, values: Values)
    requires DollarFree(values) && Resolve(s, values).Ok?
    ensures var r := Resolve(s, values).text;
            FindOpen(r).None? || '}' !in r[FindOpen(r).value + 2..]
    decreases Dollars(s)
  {
    if Iterate(s, values).Again? {
      IterationDrops(s, values);
      OkIsFinished(Iterate(s, values).text, values);
    }
  }

  // ---------------------------------------------------------------------------
  // One simultaneous pass
  // ---------------------------------------------------------------------------

  /** A text read left to right: single characters and closed placeholders. */
  datatype Piece = Char(c: char) | Name(name: string)

  datatype Parsed = Parsed(pieces: seq<Piece>, tail: string)

  /** The tail is empty or starts at a placeholder that is never closed. */
  function Parse(s: string): Parsed
    decreases |s|
  {
    if s == "" then Parsed([], "")
    else if OpensAt(s, 0) then
      var close := FindClose(s[2..]);
      if close.None? then Parsed([], s)
      else
        var rest := Parse(s[3 + close.value..]);
        Parsed([Name(s[2..2 + close.value])] + rest.pieces, rest.tail)
    else
      var rest := Parse(s[1..]);
      Parsed([Char(s[0])] + rest.pieces, rest.tail)
  }

  function RenderPiece(p: Piece): string {
    match p case Char(c) => [c] case Name(n) => Hole(n)
  }

  function Render(pieces: seq<Piece>): string {
    if pieces == [] then "" else RenderPiece(pieces[0]) + Render(pieces[1..])
  }

  /** Substitute every placeholder in one left-to-right pass; the first bad one is reported. */
  function Substitute(pieces: seq<Piece>, values: Values): Outcome {
    if pieces == [] then Ok("")
    else
      match pieces[0]
      case Char(c) =>
        (match Substitute(pieces[1..], values) case Ok(t) => Ok([c] + t) case e => e)
      case Name(n) =>
        if n !in values then UnknownPlaceholder(n)
        else if values[n] == "" then EmptyPlaceholder(n)
        else (match Substitute(pieces[1..], values) case Ok(t) => Ok(values[n] + t) case e => e)
  }

  function OnePass(s: string, values: Values): Outcome {
    var p := Parse(s);
    match Substitute(p.pieces, values) case Ok(t) => Ok(t + p.tail) case e => e
  }

  // ---------------------------------------------------------------------------
  // The loop on pieces
  // ---------------------------------------------------------------------------

  predicate TailOk(tail: string) {
    tail == "" || (OpensAt(tail, 0) && '}' !in tail)
  }

  /** Placeholders closed before the next one opens, and no stray opening between pieces. */
  ghost predicate WellFormed(pieces: seq<Piece>) {
    && (forall k :: 0 <= k < |pieces| && pieces[k].Name? ==> '}' !in pieces[k].name && FindOpen(pieces[k].name).None?)
    && (forall k :: 0 <= k < |pieces| - 1 ==> !(pieces[k] == Char('$') && pieces[k + 1] == Char('{')))
  }

  /** The condition on the text: each closed placeholder is closed before the next one opens. */
  predicate NamesPlain(s: string) {
    forall k :: 0 <= k < |Parse(s).pieces| && Parse(s).pieces[k].Name? ==> FindOpen(Parse(s).pieces[k].name).None?
  }

  lemma {:induction false} ParseRenders(s: string)
    ensures Render(Parse(s).pieces) + Parse(s).tail == s && TailOk(Parse(s).tail)
    decreases |s|
  {
    hide RenderPiece, Render;
    if s == "" {
      RenderNothing();
    } else if OpensAt(s, 0) {
      var close := FindClose(s[2..]);
      if close.Some? {
        var rest, name := s[3 + close.value..], s[2..2 + close.value];
        ParseRenders(rest);
        RenderPieceThen(Name(name), Parse(rest));
        HoleAt(s, close.value);
      } else {
        RenderNothing();
        assert forall k :: 2 <= k < |s| ==> s[k] == s[2..][k - 2];
        assert "" + s == s;
      }
    } else {
      ParseRenders(s[1..]);
      RenderPieceThen(Char(s[0]), Parse(s[1..]));
      CharPiece(s[0]);
      assert s == [s[0]] + s[1..];
    }
  }

  lemma RenderPieceThen(p: Piece, rest: Parsed)
    ensures Render([p] + rest.pieces) + rest.tail == RenderPiece(p) + (Render(rest.pieces) + rest.tail)
  {
    hide RenderPiece, Render;
    RenderStarts([p] + rest.pieces, rest.tail);
    assert ([p] + rest.pieces)[1..] == rest.pieces;
  }

  lemma CharPiece(c: char)
    ensures RenderPiece(Char(c)) == [c]
  {
  }

  lemma HoleAt(s: string, close: nat)
    requires OpensAt(s, 0) && 2 + close < |s| && s[2 + close] == '}'
    ensures RenderPiece(Name(s[2..2 + close])) + s[3 + close..] == s
  {
    var name := s[2..2 + close];
    assert Hole(name) + s[3 + close..] == s;
  }

  lemma {:induction false} ParseHead(s: string)
    ensures Parse(s).pieces != [] && Parse(s).pieces[0].Char? ==> s != "" && s[0] == Parse(s).pieces[0].c
  {
  }

  lemma {:induction false} ParseWellFormed(s: string)
    requires NamesPlain(s)
    ensures WellFormed(Parse(s).pieces)
    decreases |s|
  {
    if s != "" {
      var ps := Parse(s).pieces;
      if OpensAt(s, 0) {
        var close := FindClose(s[2..]);
        if close.Some? {
          var rest := s[3 + close.value..];
          assert ps[1..] == Parse(rest).pieces;
          assert NamesPlain(rest) by {
            assert forall k :: 0 <= k < |Parse(rest).pieces| ==> Parse(rest).pieces[k] == ps[k + 1];
          }
          ParseWellFormed(rest);
          assert s[2..2 + close.value] == s[2..][..close.value];
          WellFormedCons(ps[0], ps[1..]);
          assert ps == [ps[0]] + ps[1..];
        }
      } else {
        var rest := s[1..];
        assert ps[1..] == Parse(rest).pieces;
        assert NamesPlain(rest) by {
          assert forall k :: 0 <= k < |Parse(rest).pieces| ==> Parse(rest).pieces[k] == ps[k + 1];
        }
        ParseWellFormed(rest);
        ParseHead(rest);
        WellFormedCons(ps[0], ps[1..]);
        assert ps == [ps[0]] + ps[1..];
      }
    }
  }

  lemma WellFormedCons(p: Piece, rest: seq<Piece>)
    requires WellFormed(rest)
    requires p.Name? ==> '}' !in p.name && FindOpen(p.name).None?
    requires rest != [] ==> !(p == Char('$') && rest[0] == Char('{'))
    ensures WellFormed([p] + rest)
  {
    var all := [p] + rest;
    assert forall k :: 1 <= k < |all| ==> all[k] == rest[k - 1];
  }

  lemma WellFormedTail(pieces: seq<Piece>)
    requires WellFormed(pieces) && pieces != []
    ensures WellFormed(pieces[1..])
  {
    assert forall k :: 0 <= k < |pieces[1..]| ==> pieces[1..][k] == pieces[k + 1];
  }

  /** The pieces with every occurrence of one name filled in. */
  function Fill(pieces: seq<Piece>, name: string, value: string): seq<Piece> {
    if pieces == [] then []
    else (if pieces[0] == Name(name) then Chars(value) else [pieces[0]]) + Fill(pieces[1..], name, value)
  }

  function Chars(s: string): (ps: seq<Piece>)
    ensures |ps| == |s| && forall k :: 0 <= k < |s| ==> ps[k] == Char(s[k])
  {
    seq(|s|, k requires 0 <= k < |s| => Char(s[k]))
  }

  function Names(pieces: seq<Piece>): nat {
    if pieces == [] then 0 else (if pieces[0].Name? then 1 else 0) + Names(pieces[1..])
  }

  lemma {:induction false} RenderConcat(a: seq<Piece>, b: seq<Piece>)
    ensures Render(a + b) == Render(a) + Render(b)
  {
    hide RenderPiece;
    if a == [] {
      assert a + b == b;
    } else {
      RenderConcat(a[1..], b);
      assert (a + b)[1..] == a[1..] + b && (a + b)[0] == a[0];
      Associative(RenderPiece(a[0]), Render(a[1..]), Render(b));
    }
  }

  lemma Associative(a: string, b: string, c: string)
    ensures (a + b) + c == a + (b + c)
  {
  }

  lemma RenderOne(p: Piece)
    ensures Render([p]) == RenderPiece(p)
  {
    hide RenderPiece;
    assert [p][1..] == [] && RenderPiece(p) + "" == RenderPiece(p);
  }

  lemma {:induction false} RenderChars(s: string)
    ensures Render(Chars(s)) == s
  {
    if s != "" {
      RenderChars(s[1..]);
      assert Chars(s)[1..] == Chars(s[1..]);
    }
  }

  /** A rendering is its first piece followed by the rendering of the rest. */
  lemma RenderStarts(pieces: seq<Piece>, tail: string)
    requires pieces != []
    ensures Render(pieces) + tail == RenderPiece(pieces[0]) + (Render(pieces[1..]) + tail)
  {
    hide RenderPiece;
    Associative(RenderPiece(pieces[0]), Render(pieces[1..]), tail);
  }

  /** The first character of a rendering. */
  lemma FirstChar(pieces: seq<Piece>, tail: string)
    requires pieces != []
    ensures var r := Render(pieces) + tail; r != "" && r[0] == (match pieces[0] case Char(c) => c case Name(_) => '$')
  {
    RenderStarts(pieces, tail);
  }

  /** Where a placeholder opens in a rendering: never at a character piece. */
  lemma NotOpenAtChar(pieces: seq<Piece>, tail: string)
    requires WellFormed(pieces) && TailOk(tail) && pieces != [] && pieces[0].Char?
    ensures !OpensAt(Render(pieces) + tail, 0)
  {
    hide Render;
    RenderStarts(pieces, tail);
    var rest := Render(pieces[1..]) + tail;
    assert Render(pieces) + tail == [pieces[0].c] + rest;
    if |pieces| > 1 {
      FirstChar(pieces[1..], tail);
      assert pieces[1..][0] == pieces[1] && pieces[0] == pieces[0];
    } else {
      assert pieces[1..] == [];
      RenderNothing();
      assert rest == tail;
    }
  }

  lemma RenderNothing()
    ensures Render([]) == ""
  {
  }

  /** The first closing brace after `${` ends the name. */
  lemma {:induction false} CloseAfter(n: string, rest: string)
    requires '}' !in n
    ensures FindClose(n + "}" + rest) == Some(|n|)
  {
    var s := n + "}" + rest;
    if n != "" {
      CloseAfter(n[1..], rest);
      assert s[1..] == n[1..] + "}" + rest;
    }
  }

  lemma CloseInHole(n: string, rest: string)
    requires '}' !in n
    ensures var s := Hole(n) + rest; FindClose(s[2..]) == Some(|n|) && s[2..2 + |n|] == n
  {
    CloseAfter(n, rest);
    assert (Hole(n) + rest)[2..] == n + "}" + rest;
  }

  /** The pattern of a name matches only whole placeholders of that name. */
  lemma MatchExactly(n: string, rest: string, name: string)
    requires '}' !in n && '}' !in name
    ensures MatchesAt(Hole(n) + rest, 0, Hole(name)) <==> n == name
  {
    var s, p := Hole(n) + rest, Hole(name);
    if n == name {
      assert s[0..|p|] == p;
    }
    if MatchesAt(s, 0, p) {
      assert s == p + s[|p|..];
      CloseInHole(n, rest);
      CloseInHole(name, s[|p|..]);
    }
  }

  /** Replacing passes over a stretch in which the pattern does not start. */
  lemma {:induction false} ReplaceSkips(a: string, rest: string, pattern: string, value: string)
    requires pattern != "" && forall k: nat :: k < |a| ==> !MatchesAt(a + rest, k, pattern)
    ensures ReplaceAll(a + rest, pattern, value) == a + ReplaceAll(rest, pattern, value)
    decreases |a|
  {
    hide ReplaceAll, MatchesAt;
    var s := a + rest;
    if a == "" {
      assert s == rest;
    } else {
      assert s[1..] == a[1..] + rest && s[0] == a[0] && a == [a[0]] + a[1..];
      assert !MatchesAt(s, 0, pattern);
      ReplaceStep(s, pattern, value);
      Associative([a[0]], a[1..], ReplaceAll(rest, pattern, value));
      forall k: nat | k < |a[1..]| ensures !MatchesAt(a[1..] + rest, k, pattern) {
        MatchShifts(s, k, pattern);
      }
      ReplaceSkips(a[1..], rest, pattern, value);
    }
  }

  lemma ReplaceStep(s: string, pattern: string, value: string)
    requires pattern != "" && s != "" && !MatchesAt(s, 0, pattern)
    ensures ReplaceAll(s, pattern, value) == [s[0]] + ReplaceAll(s[1..], pattern, value)
  {
    assert s == [s[0]] + s[1..];
  }

  lemma MatchShifts(s: string, k: nat, pattern: string)
    requires s != ""
    ensures MatchesAt(s[1..], k, pattern) <==> MatchesAt(s, k + 1, pattern)
  {
    if k + 1 + |pattern| <= |s| {
      assert s[1..][k..k + |pattern|] == s[k + 1..k + 1 + |pattern|];
    }
  }

  lemma MatchOpens(s: string, k: nat, name: string)
    requires MatchesAt(s, k, Hole(name))
    ensures OpensAt(s, k)
  {
    var p := Hole(name);
    assert s[k..k + |p|][0] == p[0] && s[k..k + |p|][1] == p[1];
  }

  /** Inside `${n}` no placeholder opens except at its start. */
  lemma NoOpenInside(n: string, rest: string, k: nat)
    requires '}' !in n && FindOpen(n).None? && 1 <= k < |Hole(n)|
    ensures !OpensAt(Hole(n) + rest, k)
  {
    var s := Hole(n) + rest;
    assert s[1] == '{' && s[|n| + 2] == '}';
    if 2 <= k && k - 2 < |n| {
      assert s[k] == n[k - 2];
      assert !OpensAt(n, k - 2);
      if k - 1 < |n| {
        assert s[k + 1] == n[k - 1];
      }
    }
  }

  lemma HoleSkipped(n: string, rest: string, name: string, k: nat)
    requires '}' !in n && FindOpen(n).None? && '}' !in name && n != name && k < |Hole(n)|
    ensures !MatchesAt(Hole(n) + rest, k, Hole(name))
  {
    hide Hole;
    var s := Hole(n) + rest;
    if k == 0 {
      MatchExactly(n, rest, name);
    } else {
      NoOpenInside(n, rest, k);
      if MatchesAt(s, k, Hole(name)) {
        MatchOpens(s, k, name);
        assert false;
      }
    }
  }

  lemma {:induction false} TailUnmatched(tail: string, name: string, value: string)
    requires '}' !in tail
    ensures ReplaceAll(tail, Hole(name), value) == tail
    decreases |tail|
  {
    var p := Hole(name);
    if |tail| >= |p| {
      assert p[|p| - 1] == '}';
      assert tail[0..|p|][|p| - 1] == tail[|p| - 1];
      assert tail[|p| - 1] in tail;
      TailUnmatched(tail[1..], name, value);
      assert tail == [tail[0]] + tail[1..];
    }
  }

  /** Replacing a name in a rendering is filling it in the pieces. */
  lemma {:induction false} ReplaceIsFill(pieces: seq<Piece>, tail: string, name: string, value: string)
    requires WellFormed(pieces) && TailOk(tail) && '}' !in name
    ensures ReplaceAll(Render(pieces) + tail, Hole(name), value) == Render(Fill(pieces, name, value)) + tail
    decreases |pieces|
  {
    hide Hole, Render, ReplaceAll, OpensAt, MatchesAt;
    if pieces == [] {
      RenderNothing();
      TailUnmatched(tail, name, value);
      assert "" + tail == tail;
    } else {
      WellFormedTail(pieces);
      ReplaceIsFill(pieces[1..], tail, name, value);
      match pieces[0]
      case Char(c) => FillChar(pieces, tail, name, value);
      case Name(n) => FillName(pieces, tail, name, value);
    }
  }

  /** One character piece: the pattern does not start there. */
  lemma FillChar(pieces: seq<Piece>, tail: string, name: string, value: string)
    requires WellFormed(pieces) && TailOk(tail) && pieces != [] && pieces[0].Char?
    requires ReplaceAll(Render(pieces[1..]) + tail, Hole(name), value) == Render(Fill(pieces[1..], name, value)) + tail
    ensures ReplaceAll(Render(pieces) + tail, Hole(name), value) == Render(Fill(pieces, name, value)) + tail
  {
    hide Render, ReplaceAll, OpensAt, MatchesAt;
    var c, rest, filled := pieces[0].c, Render(pieces[1..]) + tail, Fill(pieces[1..], name, value);
    RenderStarts(pieces, tail);
    NotOpenAtChar(pieces, tail);
    forall k: nat | k < |[c]| ensures !MatchesAt([c] + rest, k, Hole(name)) {
      if MatchesAt([c] + rest, k, Hole(name)) {
        MatchOpens([c] + rest, k, name);
        assert false;
      }
    }
    ReplaceSkips([c], rest, Hole(name), value);
    RenderConcat([Char(c)], filled);
    RenderOne(Char(c));
    Associative([c], Render(filled), tail);
  }

  /** One placeholder piece: replaced as a whole if it has the name, passed over otherwise. */
  lemma FillName(pieces: seq<Piece>, tail: string, name: string, value: string)
    requires WellFormed(pieces) && pieces != [] && pieces[0].Name? && '}' !in name
    requires ReplaceAll(Render(pieces[1..]) + tail, Hole(name), value) == Render(Fill(pieces[1..], name, value)) + tail
    ensures ReplaceAll(Render(pieces) + tail, Hole(name), value) == Render(Fill(pieces, name, value)) + tail
  {
    hide Hole, Render, ReplaceAll, OpensAt, MatchesAt, WellFormed;
    PieceName(pieces);
    var n, rest, filled := pieces[0].name, Render(pieces[1..]) + tail, Fill(pieces[1..], name, value);
    RenderStarts(pieces, tail);
    if n == name {
      ReplaceFirst(name, rest, value);
      RenderConcat(Chars(value), filled);
      RenderChars(value);
      Associative(value, Render(filled), tail);
    } else {
      forall k: nat | k < |Hole(n)| ensures !MatchesAt(Hole(n) + rest, k, Hole(name)) {
        HoleSkipped(n, rest, name, k);
      }
      HoleNonEmpty(name);
      ReplaceSkips(Hole(n), rest, Hole(name), value);
      RenderConcat([Name(n)], filled);
      RenderOne(Name(n));
      Associative(Hole(n), Render(filled), tail);
    }
  }

  lemma PieceName(pieces: seq<Piece>)
    requires WellFormed(pieces) && pieces != [] && pieces[0].Name?
    ensures '}' !in pieces[0].name && FindOpen(pieces[0].name).None?
  {
  }

  lemma HoleNonEmpty(name: string)
    ensures Hole(name) != ""
  {
  }

  lemma ReplaceFirst(name: string, rest: string, value: string)
    ensures ReplaceAll(Hole(name) + rest, Hole(name), value) == value + ReplaceAll(rest, Hole(name), value)
  {
    var s, p := Hole(name) + rest, Hole(name);
    assert s[0..|p|] == p && s[|p|..] == rest;
  }

  /** No dollar sign stands right before a placeholder whose value starts with a brace. */
  predicate BraceSafe(pieces: seq<Piece>, values: Values) {
    forall k :: 0 <= k < |pieces| - 1 && pieces[k] == Char('$') && pieces[k + 1].Name? ==> !BraceFirst(values, pieces[k + 1].name)
  }

  predicate BraceFirst(values: Values, name: string) {
    name in values && values[name] != "" && values[name][0] == '{'
  }

  /** Filling then keeps the pieces well formed, and safe. */
  lemma {:induction false} FillWellFormed(pieces: seq<Piece>, name: string, values: Values)
    requires WellFormed(pieces) && BraceSafe(pieces, values) && name in values && values[name] != "" && '$' !in values[name]
    ensures WellFormed(Fill(pieces, name, values[name])) && BraceSafe(Fill(pieces, name, values[name]), values)
    decreases |pieces|
  {
    var value := values[name];
    if pieces != [] {
      WellFormedTail(pieces);
      assert forall k :: 0 <= k < |pieces[1..]| ==> pieces[1..][k] == pieces[k + 1];
      FillWellFormed(pieces[1..], name, values);
      var rest := Fill(pieces[1..], name, value);
      if pieces[0] == Name(name) {
        ValueWellFormed(value, rest);
        ValueSafe(value, rest, values);
      } else {
        if |pieces| > 1 {
          FillHead(pieces[1..], name, value);
          assert pieces[1..][0] == pieces[1];
        }
        WellFormedCons(pieces[0], rest);
        SafeCons(pieces[0], rest, values);
      }
    }
  }

  lemma FillHead(pieces: seq<Piece>, name: string, value: string)
    requires value != "" && pieces != []
    ensures Fill(pieces, name, value) != []
    ensures Fill(pieces, name, value)[0] == if pieces[0] == Name(name) then Char(value[0]) else pieces[0]
  {
    assert Chars(value)[0] == Char(value[0]);
  }

  lemma SafeCons(p: Piece, rest: seq<Piece>, values: Values)
    requires BraceSafe(rest, values)
    requires rest != [] && p == Char('$') && rest[0].Name? ==> !BraceFirst(values, rest[0].name)
    ensures BraceSafe([p] + rest, values)
  {
    hide BraceFirst;
    var all := [p] + rest;
    assert forall k :: 1 <= k < |all| ==> all[k] == rest[k - 1];
  }

  lemma ValueSafe(value: string, rest: seq<Piece>, values: Values)
    requires BraceSafe(rest, values) && '$' !in value
    ensures BraceSafe(Chars(value) + rest, values)
  {
    hide BraceFirst;
    var all := Chars(value) + rest;
    assert forall k :: 0 <= k < |value| ==> all[k] == Char(value[k]) && value[k] in value;
    assert forall k :: |value| <= k < |all| ==> all[k] == rest[k - |value|];
  }

  lemma ValueWellFormed(value: string, rest: seq<Piece>)
    requires WellFormed(rest) && '$' !in value
    ensures WellFormed(Chars(value) + rest)
  {
    var all := Chars(value) + rest;
    forall k | 0 <= k < |all| - 1 ensures !(all[k] == Char('$') && all[k + 1] == Char('{')) {
      if k < |value| {
        assert all[k] == Char(value[k]) && value[k] in value;
      } else {
        assert all[k] == rest[k - |value|] && all[k + 1] == rest[k + 1 - |value|];
      }
    }
    forall k | 0 <= k < |all| && all[k].Name? ensures '}' !in all[k].name && FindOpen(all[k].name).None? {
      assert k >= |value| && all[k] == rest[k - |value|];
    }
  }

  // ---------------------------------------------------------------------------
  // The loop is the one pass
  // ---------------------------------------------------------------------------

  function FirstName(pieces: seq<Piece>): Option<string> {
    if pieces == [] then None else if pieces[0].Name? then Some(pieces[0].name) else FirstName(pieces[1..])
  }

  /** Where the loop looks: at the first placeholder piece, or at the unclosed tail. */
  lemma {:induction false} OpenOnPieces(pieces: seq<Piece>, tail: string)
    requires WellFormed(pieces) && TailOk(tail)
    ensures var s := Render(pieces) + tail;
            match FirstName(pieces)
            case Some(n) => FindOpen(s).Some? && '}' !in n && exists rest :: s[FindOpen(s).value..] == Hole(n) + rest
            case None => FindOpen(s).None? || '}' !in s[FindOpen(s).value..]
    decreases |pieces|
  {
    hide Render, Hole;
    var s := Render(pieces) + tail;
    if pieces == [] {
      RenderNothing();
      assert s == tail;
    } else if pieces[0].Name? {
      RenderStarts(pieces, tail);
      HoleOpens(pieces[0].name, Render(pieces[1..]) + tail);
      assert s[0..] == s;
      PieceName(pieces);
    } else {
      RenderStarts(pieces, tail);
      NotOpenAtChar(pieces, tail);
      WellFormedTail(pieces);
      OpenOnPieces(pieces[1..], tail);
      OpenShifts(pieces[0].c, Render(pieces[1..]) + tail);
    }
  }

  lemma HoleOpens(n: string, rest: string)
    ensures FindOpen(Hole(n) + rest) == Some(0)
  {
    assert OpensAt(Hole(n) + rest, 0);
  }

  lemma OpenShifts(c: char, rest: string)
    requires !OpensAt([c] + rest, 0)
    ensures var s := [c] + rest;
            && (FindOpen(s).Some? <==> FindOpen(rest).Some?)
            && (FindOpen(s).Some? ==> FindOpen(s).value == FindOpen(rest).value + 1 && s[FindOpen(s).value..] == rest[FindOpen(rest).value..])
  {
    var s := [c] + rest;
    assert s[1..] == rest;
    if FindOpen(rest).Some? {
      assert OpensAt(s, FindOpen(rest).value + 1);
      assert s[FindOpen(rest).value + 1..] == rest[FindOpen(rest).value..];
    }
  }

  lemma IterateAtHole(s: string, n: string, rest: string, values: Values)
    requires FindOpen(s).Some? && s[FindOpen(s).value..] == Hole(n) + rest && '}' !in n
    ensures Iterate(s, values)
         == if n !in values then Stop(UnknownPlaceholder(n))
            else if values[n] == "" then Stop(EmptyPlaceholder(n))
            else Again(ReplaceAll(s, Hole(n), values[n]))
  {
    hide ReplaceAll, Hole;
    var open := FindOpen(s).value;
    CloseInHole(n, rest);
    assert s[open + 2..] == s[open..][2..];
    assert s[open + 2..open + 2 + |n|] == s[open..][2..2 + |n|];
  }

  /** One iteration on a rendering. */
  lemma IterateOnPieces(pieces: seq<Piece>, tail: string, values: Values)
    requires WellFormed(pieces) && TailOk(tail)
    ensures var s := Render(pieces) + tail;
            Iterate(s, values)
            == match FirstName(pieces)
               case None => Stop(Ok(s))
               case Some(n) =>
                 if n !in values then Stop(UnknownPlaceholder(n))
                 else if values[n] == "" then Stop(EmptyPlaceholder(n))
                 else Again(Render(Fill(pieces, n, values[n])) + tail)
  {
    hide Render, Hole, ReplaceAll, Fill, WellFormed, TailOk, FirstName;
    var s := Render(pieces) + tail;
    OpenOnPieces(pieces, tail);
    match FirstName(pieces)
    case None =>
      if FindOpen(s).Some? {
        assert s[FindOpen(s).value + 2..] == s[FindOpen(s).value..][2..];
        NoClose(s[FindOpen(s).value..]);
      }
    case Some(n) =>
      var rest :| s[FindOpen(s).value..] == Hole(n) + rest;
      IterateAtHole(s, n, rest, values);
      if n in values && values[n] != "" {
        ReplaceIsFill(pieces, tail, n, values[n]);
      }
  }

  lemma NoClose(s: string)
    requires |s| >= 2 && '}' !in s
    ensures FindClose(s[2..]).None?
  {
    assert '}' !in s[2..];
  }

  lemma {:induction false} NamesDrop(pieces: seq<Piece>, name: string, value: string)
    ensures Names(Fill(pieces, name, value)) <= Names(pieces)
    ensures FirstName(pieces) == Some(name) ==> Names(Fill(pieces, name, value)) < Names(pieces)
    decreases |pieces|
  {
    if pieces != [] {
      NamesDrop(pieces[1..], name, value);
      if pieces[0] == Name(name) {
        NamesConcat(Chars(value), Fill(pieces[1..], name, value));
        NamesOfChars(value);
      } else {
        NamesConcat([pieces[0]], Fill(pieces[1..], name, value));
        assert [pieces[0]][1..] == [];
      }
    }
  }

  lemma {:induction false} NamesConcat(a: seq<Piece>, b: seq<Piece>)
    ensures Names(a + b) == Names(a) + Names(b)
  {
    if a == [] {
      assert a + b == b;
    } else {
      NamesConcat(a[1..], b);
      assert (a + b)[1..] == a[1..] + b;
    }
  }

  lemma {:induction false} NamesOfChars(s: string)
    ensures Names(Chars(s)) == 0
  {
    if s != "" {
      NamesOfChars(s[1..]);
      assert Chars(s)[1..] == Chars(s[1..]);
    }
  }

  /** Substituting after filling one known name is substituting at once. */
  lemma {:induction false} FillSubstitutes(pieces: seq<Piece>, name: string, values: Values)
    requires name in values && values[name] != ""
    ensures Substitute(Fill(pieces, name, values[name]), values) == Substitute(pieces, values)
    decreases |pieces|
  {
    if pieces != [] {
      FillSubstitutes(pieces[1..], name, values);
      var filled := Fill(pieces[1..], name, values[name]);
      if pieces[0] == Name(name) {
        CharsSubstitute(values[name], filled, values);
      } else {
        assert ([pieces[0]] + filled)[1..] == filled;
      }
    }
  }

  lemma {:induction false} CharsSubstitute(s: string, rest: seq<Piece>, values: Values)
    ensures Substitute(Chars(s) + rest, values) == (match Substitute(rest, values) case Ok(t) => Ok(s + t) case e => e)
  {
    if s == "" {
      assert Chars(s) + rest == rest;
    } else {
      CharsSubstitute(s[1..], rest, values);
      assert (Chars(s) + rest)[1..] == Chars(s[1..]) + rest && (Chars(s) + rest)[0] == Char(s[0]);
      if Substitute(rest, values).Ok? {
        assert [s[0]] + (s[1..] + Substitute(rest, values).text) == s + Substitute(rest, values).text;
      }
    }
  }

  lemma {:induction false} NothingToSubstitute(pieces: seq<Piece>, values: Values)
    requires FirstName(pieces).None?
    ensures Substitute(pieces, values) == Ok(Render(pieces))
  {
    if pieces != [] {
      NothingToSubstitute(pieces[1..], values);
    }
  }

  lemma {:induction false} FirstNameReported(pieces: seq<Piece>, values: Values)
    requires FirstName(pieces).Some?
    ensures var n := FirstName(pieces).value;
            && (n !in values ==> Substitute(pieces, values) == UnknownPlaceholder(n))
            && (n in values && values[n] == "" ==> Substitute(pieces, values) == EmptyPlaceholder(n))
  {
    if pieces[0].Char? {
      FirstNameReported(pieces[1..], values);
    }
  }

  lemma {:induction false} LoopIsSubstitution(pieces: seq<Piece>, tail: string, values: Values)
    requires WellFormed(pieces) && TailOk(tail) && BraceSafe(pieces, values) && DollarFree(values)
    ensures Resolve(Render(pieces) + tail, values)
         == match Substitute(pieces, values) case Ok(t) => Ok(t + tail) case e => e
    decreases Names(pieces)
  {
    hide Render, Substitute, Fill, WellFormed, TailOk, FirstName, Iterate, BraceSafe;
    IterateOnPieces(pieces, tail, values);
    match FirstName(pieces)
    case None => NothingToSubstitute(pieces, values);
    case Some(n) =>
      FirstNameReported(pieces, values);
      if n in values && values[n] != "" {
        NamesDrop(pieces, n, values[n]);
        FillWellFormed(pieces, n, values);
        FillSubstitutes(pieces, n, values);
        LoopIsSubstitution(Fill(pieces, n, values[n]), tail, values);
      }
  }

  /** The repeated replace-all equals one simultaneous left-to-right substitution, including
      which unknown or empty placeholder is reported, for every text whose placeholders are
      closed before the next one opens and that has no dollar sign right before a placeholder
      whose value starts with a brace. */
  lemma LoopIsOnePass(s: string, values: Values)
    requires NamesPlain(s) && DollarFree(values) && BraceSafe(Parse(s).pieces, values)
    ensures Resolve(s, values) == OnePass(s, values)
  {
    ParseRenders(s);
    ParseWellFormed(s);
    LoopIsSubstitution(Parse(s).pieces, Parse(s).tail, values);
  }

  /** A value that starts with a brace has a closing one, as a braced UUID does. */
  predicate BracesClosed(values: Values) {
    forall n :: n in values && BraceFirst(values, n) ==> '}' in values[n]
  }

  /** A placeholder opens in the text and is closed. */
  ghost predicate ClosedOpening(t: string) {
    exists j: nat, c: nat :: OpensAt(t, j) && j + 2 <= c < |t| && t[c] == '}'
  }

  lemma OpeningShifts(a: string, t: string)
    requires ClosedOpening(t)
    ensures ClosedOpening(a + t)
  {
    var j: nat, c: nat :| OpensAt(t, j) && j + 2 <= c < |t| && t[c] == '}';
    assert OpensAt(a + t, |a| + j) && (a + t)[|a| + c] == '}';
  }

  /** A dollar sign and a braced value make a placeholder of their own. */
  lemma BraceOpens(value: string, t: string)
    requires value != "" && value[0] == '{' && '}' in value
    ensures ClosedOpening(['$'] + (value + t))
  {
    var k :| 0 <= k < |value| && value[k] == '}';
    var all := ['$'] + (value + t);
    assert OpensAt(all, 0) && all[k + 1] == '}';
  }

  lemma {:induction false} UnsafeOpens(pieces: seq<Piece>, values: Values, tail: string)
    requires BracesClosed(values) && !BraceSafe(pieces, values) && Substitute(pieces, values).Ok?
    ensures ClosedOpening(Substitute(pieces, values).text + tail)
  {
    var k :| 0 <= k < |pieces| - 1 && pieces[k] == Char('$') && pieces[k + 1].Name? && BraceFirst(values, pieces[k + 1].name);
    var t := Substitute(pieces[1..], values).text;
    if k == 0 {
      var value, more := values[pieces[1].name], Substitute(pieces[1..][1..], values).text;
      assert pieces[1..][0] == pieces[1] && t == value + more;
      BraceOpens(value, more + tail);
      assert ['$'] + (value + more) + tail == ['$'] + (value + (more + tail));
    } else {
      assert pieces[1..][k - 1] == pieces[k] && pieces[1..][k] == pieces[k + 1];
      UnsafeOpens(pieces[1..], values, tail);
      var head := if pieces[0].Char? then [pieces[0].c] else values[pieces[0].name];
      OpeningShifts(head, t + tail);
      assert head + (t + tail) == head + t + tail;
    }
  }

  /** No key contains the opening of a placeholder; the caller's three keys are constants. */
  predicate KeysPlain(values: Values) {
    forall n :: n in values ==> FindOpen(n).None?
  }

  lemma {:induction false} NamesKnown(pieces: seq<Piece>, values: Values)
    requires Substitute(pieces, values).Ok?
    ensures forall k :: 0 <= k < |pieces| && pieces[k].Name? ==> pieces[k].name in values
  {
    if pieces != [] {
      NamesKnown(pieces[1..], values);
      assert forall k :: 1 <= k < |pieces| ==> pieces[k] == pieces[1..][k - 1];
    }
  }

  /** For the values the caller allows, and every text, the condition is exact: where one pass
      succeeds the loop agrees with it if and only if no dollar sign stands before a braced
      value. */
  lemma OnePassExactly(s: string, values: Values)
    requires KeysPlain(values) && DollarFree(values) && BracesClosed(values) && OnePass(s, values).Ok?
    ensures Resolve(s, values) == OnePass(s, values) <==> BraceSafe(Parse(s).pieces, values)
  {
    NamesKnown(Parse(s).pieces, values);
    if BraceSafe(Parse(s).pieces, values) {
      LoopIsOnePass(s, values);
    } else {
      UnsafeOpens(Parse(s).pieces, values, Parse(s).tail);
      if Resolve(s, values) == OnePass(s, values) {
        OkIsFinished(s, values);
        NotFinished(OnePass(s, values).text);
        assert false;
      }
    }
  }

  lemma NotFinished(t: string)
    requires ClosedOpening(t)
    ensures FindOpen(t).Some? && '}' in t[FindOpen(t).value + 2..]
  {
    var j: nat, c: nat :| OpensAt(t, j) && j + 2 <= c < |t| && t[c] == '}';
    var open := FindOpen(t).value;
    assert t[open + 2..][c - open - 2] == '}';
  }
}
