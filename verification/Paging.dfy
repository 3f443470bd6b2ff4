/** Newest-first paging by a cursor over a table whose identifiers only grow. */
module Paging {
  import opened Wrappers

  predicate IsLargest(m: nat, ids: set<nat>) {
    m in ids && forall x :: x in ids ==> x <= m
  }

  function Largest(ids: set<nat>): (m: nat)
    requires ids != {}
    ensures IsLargest(m, ids)
  {
    LargestExists(ids);
    var m :| IsLargest(m, ids);
    m
  }

  lemma {:induction false} LargestExists(ids: set<nat>)
    requires ids != {}
    ensures exists m :: IsLargest(m, ids)
  {
    var a :| a in ids;
    var rest := ids - {a};
    if rest == {} {
      assert ids == {a};
      assert IsLargest(a, ids);
    } else {
      LargestExists(rest);
      var m :| IsLargest(m, rest);
      LargestOfTwo(ids, a, m);
    }
  }

  lemma LargestOfTwo(ids: set<nat>, a: nat, m: nat)
    requires a in ids && IsLargest(m, ids - {a})
    ensures IsLargest(if m > a then m else a, ids)
  {
    assert forall x :: x in ids ==> x == a || x in ids - {a};
  }

  /** All identifiers, newest first. */
  function Descending(ids: set<nat>): (s: seq<nat>)
    ensures |s| == |ids|
    ensures forall x :: x in s <==> x in ids
  {
    if ids == {} then [] else [Largest(ids)] + Descending(ids - {Largest(ids)})
  }

  predicate NewestFirst(s: seq<nat>) {
    forall i, j :: 0 <= i < j < |s| ==> s[i] > s[j]
  }

  lemma {:induction false} DescendingIsSorted(ids: set<nat>)
    ensures NewestFirst(Descending(ids))
  {
    if ids != {} {
      var rest := ids - {Largest(ids)};
      DescendingIsSorted(rest);
      var s, tail := Descending(ids), Descending(rest);
      assert s == [Largest(ids)] + tail;
      forall k | 0 <= k < |tail| ensures tail[k] < Largest(ids) {
        assert tail[k] in tail && tail[k] in rest;
      }
      NewestFirstCons(Largest(ids), tail);
    }
  }

  lemma NewestFirstCons(first: nat, tail: seq<nat>)
    requires NewestFirst(tail) && forall k :: 0 <= k < |tail| ==> tail[k] < first
    ensures NewestFirst([first] + tail)
  {
    assert forall k :: 0 < k < |tail| + 1 ==> ([first] + tail)[k] == tail[k - 1];
  }

  function Below(ids: set<nat>, before: Option<nat>): set<nat> {
    if before.None? then ids else set x | x in ids && x < before.value
  }

  function Take<T>(s: seq<T>, n: nat): seq<T> {
    if |s| <= n then s else s[..n]
  }

  /** One page: the newest `limit` identifiers before the cursor. */
  function Page(ids: set<nat>, before: Option<nat>, limit: nat): seq<nat> {
    Take(Descending(Below(ids, before)), limit)
  }

  /** A table with everything it had at the first page, and otherwise only newer entries. */
  ghost predicate Later(ids: set<nat>, later: set<nat>) {
    ids <= later && forall x, y :: x in later && x !in ids && y in ids ==> x > y
  }

  lemma BelowLater(ids: set<nat>, later: set<nat>, cursor: nat)
    requires Later(ids, later) && cursor in ids
    ensures Below(later, Some(cursor)) == Below(ids, Some(cursor))
  {
  }

  lemma BelowTheLargest(ids: set<nat>, c: nat)
    requires ids != {} && c in ids
    ensures c == Largest(ids) ==> Below(ids, Some(c)) == ids - {c}
    ensures c != Largest(ids) ==> Below(ids, Some(c)) == Below(ids - {Largest(ids)}, Some(c))
  {
  }

  lemma DescendingUnfolds(ids: set<nat>)
    requires ids != {}
    ensures Descending(ids) == [Largest(ids)] + Descending(ids - {Largest(ids)})
  {
  }

  /** What follows the first `n` entries is everything below the last of them. */
  lemma {:induction false} DescendingDrop(ids: set<nat>, n: nat)
    requires 0 < n <= |ids|
    ensures Descending(ids)[n..] == Descending(Below(ids, Some(Descending(ids)[n - 1])))
    decreases n
  {
    hide Largest, Below, Descending;
    var m := Largest(ids);
    var rest := ids - {m};
    var tail := Descending(rest);
    assert Descending(ids) == [m] + tail by { DescendingUnfolds(ids); }
    if n == 1 {
      BelowTheLargest(ids, m);
      assert Descending(ids)[1..] == tail;
    } else {
      DescendingDrop(rest, n - 1);
      var c := tail[n - 2];
      assert c in tail;
      BelowTheLargest(ids, c);
      assert Descending(ids)[n - 1] == c && Descending(ids)[n..] == tail[n - 1..];
    }
  }

  lemma BelowTwice(ids: set<nat>, before: Option<nat>, c: nat)
    requires c in Below(ids, before)
    ensures c in ids && Below(Below(ids, before), Some(c)) == Below(ids, Some(c))
  {
  }

  /** After a full page the cursor is its last entry, and exactly the rest is left below it. */
  lemma FullPage(ids: set<nat>, before: Option<nat>, limit: nat)
    requires 0 < limit <= |Below(ids, before)|
    ensures var all := Descending(Below(ids, before)); var cursor := all[limit - 1];
      && Page(ids, before, limit) == all[..limit]
      && cursor in ids
      && Descending(Below(ids, Some(cursor))) == all[limit..]
      && |Below(ids, Some(cursor))| < |Below(ids, before)|
  {
    hide Below, Largest, Descending;
    var open := Below(ids, before);
    var all := Descending(open);
    var cursor := all[limit - 1];
    assert cursor in all;
    DescendingDrop(open, limit);
    BelowTwice(ids, before, cursor);
    assert |Descending(Below(ids, Some(cursor)))| == |all[limit..]|;
  }

  lemma PageSize(ids: set<nat>, before: Option<nat>, limit: nat)
    ensures |Page(ids, before, limit)| < limit <==> |Below(ids, before)| < limit
  {
  }

  lemma ShortPage(ids: set<nat>, before: Option<nat>, limit: nat)
    requires |Below(ids, before)| < limit
    ensures Page(ids, before, limit) == Descending(Below(ids, before))
  {
  }

  lemma BelowNone(ids: set<nat>)
    ensures Below(ids, None) == ids
  {
  }

  // ----- Following the next cursor -----

  /** What a page offers to go on with: the cursor of its last entry, if the table holds more below it. */
  function NextBefore(ids: set<nat>, before: Option<nat>, limit: nat): (next: Option<nat>)
    requires limit > 0
  {
    if |Page(ids, before, limit + 1)| > limit then Some(Page(ids, before, limit + 1)[limit - 1]) else None
  }

  /** A page and its next cursor: one entry more than asked for is read to decide on it. */
  method CatalogPage(ids: set<nat>, limit: nat, before: Option<nat>) returns (items: seq<nat>, nextBefore: Option<nat>)
    requires limit > 0
    ensures items == Page(ids, before, limit) && nextBefore == NextBefore(ids, before, limit)
  {
    var rows := Page(ids, before, limit + 1);
    items := Take(rows, limit);
    nextBefore := if |rows| > limit && items != [] then Some(items[|items| - 1]) else None;
  }

  /** The next cursor is there exactly when more than a page is left, and then it is the page's last
      entry; otherwise the page is all that is left. */
  lemma NextBeforeExactly(ids: set<nat>, before: Option<nat>, limit: nat)
    requires limit > 0
    ensures var page, next := Page(ids, before, limit), NextBefore(ids, before, limit);
      && (next.Some? <==> |Below(ids, before)| > limit)
      && (next.Some? ==> |page| == limit && next.value == page[limit - 1] == Descending(Below(ids, before))[limit - 1])
      && (next.None? ==> page == Descending(Below(ids, before)))
  {
    hide Descending, Below, Largest;
  }

  /** A walk reads page after page from the tables it meets, following each page's next cursor until a
      page has none. */
  function Walk(tables: nat -> set<nat>, at: nat, before: Option<nat>, limit: nat, fuel: nat): (r: (seq<nat>, bool))
    requires limit > 0
    decreases fuel
  {
    var page, next := Page(tables(at), before, limit), NextBefore(tables(at), before, limit);
    if next.None? then (page, true)
    else if fuel == 0 then (page, false)
    else
      var (rest, done) := Walk(tables, at + 1, next, limit, fuel - 1);
      (page + rest, done)
  }

  /** Walking resumes at a cursor that was in the first table. */
  lemma {:induction false} WalkRest(tables: nat -> set<nat>, ids: set<nat>, at: nat, before: Option<nat>,
          limit: nat, fuel: nat)
    requires limit > 0 && |Below(ids, before)| <= fuel
    requires before.Some? ==> before.value in ids
    requires before.None? ==> tables(at) == ids
    requires forall k: nat :: Later(ids, tables(k))
    ensures Walk(tables, at, before, limit, fuel) == (Descending(Below(ids, before)), true)
    decreases fuel
  {
    hide Later, Descending, Largest, Below, Page, NextBefore;
    if before.Some? {
      BelowLater(ids, tables(at), before.value);
    }
    SamePage(ids, tables(at), before, limit);
    NextBeforeExactly(ids, before, limit);
    var all := Descending(Below(ids, before));
    if |Below(ids, before)| > limit {
      FullPage(ids, before, limit);
      WalkRest(tables, ids, at + 1, Some(all[limit - 1]), limit, fuel - 1);
      assert all[..limit] + all[limit..] == all;
    }
  }

  lemma SamePage(ids: set<nat>, table: set<nat>, before: Option<nat>, limit: nat)
    requires limit > 0 && Below(table, before) == Below(ids, before)
    ensures Page(table, before, limit) == Page(ids, before, limit)
    ensures NextBefore(table, before, limit) == NextBefore(ids, before, limit)
  {
  }

  /** However many newer entries appear between the pages, a walk from the start ends, and has visited
      exactly the entries of the first table, each once, newest first. */
  lemma WalkVisitsAllOnce(tables: nat -> set<nat>, limit: nat)
    requires limit > 0 && forall k: nat :: Later(tables(0), tables(k))
    ensures var (visited, done) := Walk(tables, 0, None, limit, |tables(0)|);
      && done && |visited| == |tables(0)|
      && (forall x :: x in visited <==> x in tables(0))
      && NewestFirst(visited)
  {
    hide Later, Walk, Descending;
    DescendingIsSorted(tables(0));
    BelowNone(tables(0));
    WalkRest(tables, tables(0), 0, None, limit, |tables(0)|);
  }

  // ----- The reconcile loop -----

  const RECONCILE_LIMIT := 100

  /** The reconcile loop of the server: hands every run to `visited`, page by page. */
  method Reconcile(ids: set<nat>) returns (visited: seq<nat>)
    ensures visited == Descending(ids)
  {
    hide Descending, Below, Largest, Page;
    BelowNone(ids);
    var before: Option<nat> := None;
    var rows := Page(ids, None, RECONCILE_LIMIT);
    visited := rows;
    ghost var size: nat := |Below(ids, None)|;
    PageSplit(ids, None);
    while |rows| == RECONCILE_LIMIT
      invariant PageLeaves(ids, rows, size)
      invariant visited + Rest(ids, rows, size) == Descending(ids)
      decreases size
    {
      before := Some(rows[|rows| - 1]);
      size := |Below(ids, before)|;
      PageSplit(ids, before);
      ghost var all := Descending(Below(ids, before));
      rows := Page(ids, before, RECONCILE_LIMIT);
      assert visited + (rows + Rest(ids, rows, size)) == (visited + rows) + Rest(ids, rows, size);
      visited := visited + rows;
    }
    assert visited + [] == visited;
  }

  /** A page of the reconcile loop, taken where `size` entries were left: either it was the last, or
      fewer entries are left below its last one. */
  ghost predicate PageLeaves(ids: set<nat>, rows: seq<nat>, size: nat) {
    |rows| <= RECONCILE_LIMIT && (|rows| == RECONCILE_LIMIT ==> |Below(ids, Some(rows[|rows| - 1]))| < size)
  }

  ghost function Rest(ids: set<nat>, rows: seq<nat>, size: nat): seq<nat>
    requires PageLeaves(ids, rows, size)
  {
    if |rows| < RECONCILE_LIMIT then [] else Descending(Below(ids, Some(rows[|rows| - 1])))
  }

  /** One page and what it leaves are all that was left. */
  lemma PageSplit(ids: set<nat>, before: Option<nat>)
    ensures var rows, size := Page(ids, before, RECONCILE_LIMIT), |Below(ids, before)|;
      PageLeaves(ids, rows, size) && rows + Rest(ids, rows, size) == Descending(Below(ids, before))
  {
    hide Descending, Below, Largest, Page;
    PageSize(ids, before, RECONCILE_LIMIT);
    var all := Descending(Below(ids, before));
    if |Below(ids, before)| < RECONCILE_LIMIT {
      ShortPage(ids, before, RECONCILE_LIMIT);
      assert all + [] == all;
    } else {
      FullPage(ids, before, RECONCILE_LIMIT);
      assert all == all[..RECONCILE_LIMIT] + all[RECONCILE_LIMIT..];
    }
  }
}
