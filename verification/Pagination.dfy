/** Keyset pagination of the domain list: the newest rows first, a strict cursor, and one row
    fetched beyond the page. */
module Pagination {
  import opened Identifiers

  /** `key` stands for the unique (created_at, domain_id). */
  datatype Row = Row(key: int, name: string)
  datatype Page = Page(items: seq<Row>, next: Option<int>)

  /** The table in the repository's order: keys strictly descending. */
  ghost predicate Descending(table: seq<Row>) {
    forall j, k :: 0 <= j < k < |table| ==> table[j].key > table[k].key
  }

  /** The rows strictly past the cursor, in order. */
  function Past(table: seq<Row>, before: Option<int>): seq<Row> {
    if table == [] then []
    else (if before.None? || table[0].key < before.value then [table[0]] else []) + Past(table[1..], before)
  }

  /** The repository's query: LIMIT limit + 1. */
  function Query(table: seq<Row>, before: Option<int>, limit: nat): seq<Row> {
    var rows := Past(table, before);
    if |rows| <= limit + 1 then rows else rows[..limit + 1]
  }

  /** list_domains: the cursor is the last included row, and only if more rows follow. */
  function ListDomains(table: seq<Row>, before: Option<int>, limit: nat): (p: Page)
    ensures p.next.Some? ==> limit > 0 && p.items != [] && p.next.value == p.items[|p.items| - 1].key
  {
    var rows := Query(table, before, limit);
    var items := if |rows| < limit then rows else rows[..limit];
    Page(items, if |rows| > limit && limit > 0 then Some(rows[limit - 1].key) else None)
  }

  lemma {:induction false} PastAll(table: seq<Row>)
    ensures Past(table, None) == table
  {
    if table != [] {
      PastAll(table[1..]);
    }
  }

  /** In a descending table the rows past the i-th key are exactly the rest. */
  lemma {:induction false} PastSuffix(table: seq<Row>, i: nat)
    requires Descending(table) && i < |table|
    ensures Past(table, Some(table[i].key)) == table[i + 1..]
    decreases |table|
  {
    var rest := table[1..];
    assert Descending(rest) by {
      assert forall k :: 0 <= k < |rest| ==> rest[k] == table[k + 1];
    }
    if i > 0 {
      PastSuffix(rest, i - 1);
      assert rest[i..] == table[i + 1..];
    } else {
      PastEverything(rest, table[0].key);
    }
  }

  lemma {:induction false} PastEverything(table: seq<Row>, key: int)
    requires forall k :: 0 <= k < |table| ==> table[k].key < key
    ensures Past(table, Some(key)) == table
    decreases |table|
  {
    if table != [] {
      PastEverything(table[1..], key);
    }
  }

  /** The page after the first `n` rows: the next `limit` rows, and a cursor if more follow. */
  lemma PageAt(table: seq<Row>, before: Option<int>, n: nat, limit: nat)
    requires n <= |table| && limit >= 1 && Past(table, before) == table[n..]
    ensures var p := ListDomains(table, before, limit);
            var m := if n + limit < |table| then n + limit else |table|;
            && p.items == table[n..m]
            && p.next == (if m < |table| then Some(table[m - 1].key) else None)
  {
    hide ListDomains, Query, Past;
    CursorExactly(table, before, limit);
    if n + limit < |table| {
      assert table[n..][..limit] == table[n..n + limit] && table[n..][limit - 1] == table[n + limit - 1];
    } else {
      assert |table[n..]| <= limit && table[n..|table|] == table[n..];
    }
  }

  /** A client that follows the returned cursors until there is none sees every domain exactly
      once, in order, and stops. */
  method Follow(table: seq<Row>, limit: nat) returns (seen: seq<Row>)
    requires Descending(table) && limit >= 1
    ensures seen == table
  {
    hide ListDomains, Past, Query, Descending;
    var page := ListDomains(table, None, limit);
    PastAll(table);
    PageAt(table, None, 0, limit);
    seen := page.items;
    while page.next.Some?
      invariant |seen| <= |table| && seen == table[..|seen|]
      invariant page.next == if |seen| < |table| then Some(table[|seen| - 1].key) else None
      invariant |seen| < |table| ==> |seen| > 0
      decreases |table| - |seen|, if page.next.Some? then 1 else 0
    {
      ghost var n := |seen|;
      PastSuffix(table, n - 1);
      PageAt(table, page.next, n, limit);
      page := ListDomains(table, page.next, limit);
      seen := seen + page.items;
    }
  }

  /** A page limit of zero shows nothing and offers no cursor: nothing can ever be listed. */
  lemma ZeroLimitIsStuck(table: seq<Row>, before: Option<int>)
    ensures ListDomains(table, before, 0) == Page([], None)
  {
  }

  /** A cursor is returned exactly when rows remain beyond the page. */
  lemma CursorExactly(table: seq<Row>, before: Option<int>, limit: nat)
    requires limit >= 1
    ensures var p := ListDomains(table, before, limit);
            && p.items == (if |Past(table, before)| <= limit then Past(table, before) else Past(table, before)[..limit])
            && p.next == (if |Past(table, before)| > limit then Some(Past(table, before)[limit - 1].key) else None)
  {
    hide Past;
  }
}
