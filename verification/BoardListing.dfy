/**
 * The bounded cross-channel listing used when the changes feed is broken: pages of a metadata
 * query, kept while they are board paths not handled before.
 */
module BoardListing {
  import opened Common
  import opened BoardDelivery

  const BOARD_LIST_MAX: nat := 200

  datatype ListOptions = ListOptions(maxPaths: Option<int>, maxPages: Option<int>, exclude: set<string>)

  datatype ListResult = ListResult(paths: seq<string>, truncated: bool)

  function PathLimit(opts: ListOptions): (n: nat) {
    Max(1, if opts.maxPaths.Some? then opts.maxPaths.value else 1000)
  }

  function PageLimit(opts: ListOptions): nat {
    Max(0, if opts.maxPages.Some? then opts.maxPages.value else 20)
  }

  predicate Wanted(names: Names, exclude: set<string>, path: string) {
    IsBoardPath(names, path) && path !in exclude
  }

  /** One page: the paths kept so far, and whether the bound cut the page short. */
  function KeepRows(names: Names, opts: ListOptions, seen: seq<string>, rows: seq<string>): ListResult
    decreases |rows|
  {
    if rows == [] then ListResult(seen, false)
    else if !Wanted(names, opts.exclude, rows[0]) || rows[0] in seen then KeepRows(names, opts, seen, rows[1..])
    else if |seen| >= PathLimit(opts) then ListResult(seen, true)
    else KeepRows(names, opts, seen + [rows[0]], rows[1..])
  }

  /** The rest of the listing from page `k`; `more` is whether the previous page had rows. */
  function ListFrom(names: Names, opts: ListOptions, page: nat -> seq<string>, k: nat, seen: seq<string>, more: bool): ListResult
    decreases PageLimit(opts) - k
  {
    if k >= PageLimit(opts) then ListResult(seen, more)
    else
      var kept := KeepRows(names, opts, seen, page(k));
      if kept.truncated then kept
      else if page(k) == [] then ListResult(kept.paths, false)
      else ListFrom(names, opts, page, k + 1, kept.paths, true)
  }

  method ReadPage(names: Names, opts: ListOptions, seen: seq<string>, rows: seq<string>) returns (after: seq<string>, truncated: bool)
    ensures ListResult(after, truncated) == KeepRows(names, opts, seen, rows)
  {
    after, truncated := seen, false;
    var i := 0;
    assert rows[0..] == rows;
    while i < |rows|
      invariant 0 <= i <= |rows|
      invariant KeepRows(names, opts, after, rows[i..]) == KeepRows(names, opts, seen, rows)
    {
      assert rows[i..][1..] == rows[i + 1..];
      var p := rows[i];
      if IsBoardPath(names, p) && p !in opts.exclude && p !in after {
        if |after| >= PathLimit(opts) {
          return after, true;
        }
        after := after + [p];
      }
      i := i + 1;
    }
  }

  /** `listAllBoardMessagePaths`: stops at an empty page, at the path bound, or at the page bound. */
  method ListAllBoardMessagePaths(names: Names, opts: ListOptions, page: nat -> seq<string>)
    returns (paths: seq<string>, truncated: bool)
    ensures ListResult(paths, truncated) == ListFrom(names, opts, page, 0, [], false)
  {
    paths, truncated := [], false;
    var lastPageRows := 0;
    var k := 0;
    while k < PageLimit(opts)
      invariant 0 <= k <= PageLimit(opts) && !truncated
      invariant ListFrom(names, opts, page, k, paths, lastPageRows > 0) == ListFrom(names, opts, page, 0, [], false)
    {
      var rows := page(k);
      paths, truncated := ReadPage(names, opts, paths, rows);
      lastPageRows := |rows|;
      if |rows| == 0 || truncated { break; }
      k := k + 1;
    }
    truncated := truncated || lastPageRows > 0;
  }

  // ---- against a fixed row list --------------------------------------------------------

  function PageOf(rows: seq<string>): nat -> seq<string> {
    (k: nat) => rows[Min(k * BOARD_LIST_MAX, |rows|)..Min((k + 1) * BOARD_LIST_MAX, |rows|)]
  }

  ghost predicate NoRepeats(paths: seq<string>) {
    forall i, j :: 0 <= i < j < |paths| ==> paths[i] != paths[j]
  }

  ghost predicate Clean(names: Names, opts: ListOptions, seen: seq<string>) {
    NoRepeats(seen) && |seen| <= PathLimit(opts) && forall p :: p in seen ==> Wanted(names, opts.exclude, p)
  }

  /** Some order-preserving choice of rows: each kept path is a row. */
  lemma {:induction false} KeepRowsKeeps(names: Names, opts: ListOptions, seen: seq<string>, rows: seq<string>)
    requires Clean(names, opts, seen)
    ensures var r := KeepRows(names, opts, seen, rows);
            && Clean(names, opts, r.paths) && seen <= r.paths
            && (forall p :: p in r.paths ==> p in seen || p in rows)
            && (!r.truncated ==> forall p :: p in rows && Wanted(names, opts.exclude, p) ==> p in r.paths)
            && (r.truncated ==> |r.paths| == PathLimit(opts) && exists p :: p in rows && Wanted(names, opts.exclude, p) && p !in r.paths)
    decreases |rows|
  {
    if rows != [] {
      var first, rest := rows[0], rows[1..];
      assert forall p :: p in rows <==> p == first || p in rest;
      if !Wanted(names, opts.exclude, first) || first in seen {
        KeepRowsKeeps(names, opts, seen, rest);
      } else if |seen| < PathLimit(opts) {
        KeepRowsKeeps(names, opts, seen + [first], rest);
        assert first in (seen + [first]);
      }
    }
  }

  /** The rows of the pages before `k`. */
  function RowsBefore(rows: seq<string>, k: nat): seq<string> {
    rows[..Min(k * BOARD_LIST_MAX, |rows|)]
  }

  lemma NextRows(rows: seq<string>, k: nat)
    ensures RowsBefore(rows, k + 1) == RowsBefore(rows, k) + PageOf(rows)(k)
    ensures PageOf(rows)(k) == [] <==> k * BOARD_LIST_MAX >= |rows|
  {
    assert (k + 1) * BOARD_LIST_MAX == k * BOARD_LIST_MAX + BOARD_LIST_MAX;
  }

  ghost predicate Covers(names: Names, opts: ListOptions, rows: seq<string>, k: nat, seen: seq<string>) {
    && (forall p :: p in seen ==> p in RowsBefore(rows, k))
    && (forall p :: p in RowsBefore(rows, k) && Wanted(names, opts.exclude, p) ==> p in seen)
  }

  lemma PageStep(names: Names, opts: ListOptions, rows: seq<string>, k: nat, seen: seq<string>)
    requires Clean(names, opts, seen) && Covers(names, opts, rows, k, seen)
    ensures var kept := KeepRows(names, opts, seen, PageOf(rows)(k));
            && Clean(names, opts, kept.paths)
            && (forall p :: p in kept.paths ==> p in rows)
            && (if kept.truncated then |kept.paths| == PathLimit(opts) else Covers(names, opts, rows, k + 1, kept.paths))
  {
    var page := PageOf(rows)(k);
    NextRows(rows, k);
    KeepRowsKeeps(names, opts, seen, page);
    hide Wanted, Clean, KeepRows, PageOf;
    assert forall p :: p in RowsBefore(rows, k + 1) <==> p in RowsBefore(rows, k) || p in page;
    assert forall p :: p in RowsBefore(rows, k + 1) ==> p in rows;
    hide RowsBefore;
  }

  /** Everything wanted among the rows of the first `k` pages is listed. */
  ghost predicate Complete(names: Names, opts: ListOptions, rows: seq<string>, k: nat, paths: seq<string>) {
    forall p :: p in RowsBefore(rows, k) && Wanted(names, opts.exclude, p) ==> p in paths
  }

  lemma AllRows(rows: seq<string>, k: nat)
    requires k * BOARD_LIST_MAX >= |rows|
    ensures RowsBefore(rows, k) == rows
  {
  }

  lemma {:induction false} ListFromIsSound(names: Names, opts: ListOptions, rows: seq<string>, k: nat, seen: seq<string>, more: bool)
    requires Clean(names, opts, seen) && Covers(names, opts, rows, k, seen)
    requires more || k == 0
    ensures Sound(names, opts, rows, ListFrom(names, opts, PageOf(rows), k, seen, more))
    decreases PageLimit(opts) - k
  {
    hide Sound, Clean, Covers, KeepRows, PageOf;
    var page := PageOf(rows)(k);
    if k >= PageLimit(opts) {
      LimitIsSound(names, opts, rows, k, seen, more);
    } else {
      PageStep(names, opts, rows, k, seen);
      if KeepRows(names, opts, seen, page).truncated {
        FullIsSound(names, opts, rows, KeepRows(names, opts, seen, page));
      } else if page == [] {
        EmptyPageIsSound(names, opts, rows, k, seen);
        KeepNothing(names, opts, seen);
      } else {
        ListFromIsSound(names, opts, rows, k + 1, KeepRows(names, opts, seen, page).paths, true);
      }
    }
  }

  /** A result of the listing: unhandled board paths of the rows, all of them unless it says so or is full. */
  ghost predicate Sound(names: Names, opts: ListOptions, rows: seq<string>, r: ListResult) {
    && Clean(names, opts, r.paths)
    && (forall p :: p in r.paths ==> p in rows)
    && (!r.truncated && PageLimit(opts) > 0 ==> forall p :: p in rows && Wanted(names, opts.exclude, p) ==> p in r.paths)
    && (|r.paths| == PathLimit(opts) || Complete(names, opts, rows, PageLimit(opts), r.paths))
  }

  lemma LimitIsSound(names: Names, opts: ListOptions, rows: seq<string>, k: nat, seen: seq<string>, more: bool)
    requires Clean(names, opts, seen) && Covers(names, opts, rows, k, seen) && k >= PageLimit(opts) && (more || k == 0)
    ensures Sound(names, opts, rows, ListResult(seen, more))
  {
    hide Wanted, Clean;
    assert forall p :: p in RowsBefore(rows, k) ==> p in rows;
    RowsBeforeGrow(rows, PageLimit(opts), k);
    hide RowsBefore;
  }

  lemma FullIsSound(names: Names, opts: ListOptions, rows: seq<string>, r: ListResult)
    requires Clean(names, opts, r.paths) && (forall p :: p in r.paths ==> p in rows) && r.truncated && |r.paths| == PathLimit(opts)
    ensures Sound(names, opts, rows, r)
  {
    hide Wanted, Clean;
  }

  lemma EmptyPageIsSound(names: Names, opts: ListOptions, rows: seq<string>, k: nat, seen: seq<string>)
    requires Clean(names, opts, seen) && Covers(names, opts, rows, k, seen) && PageOf(rows)(k) == []
    ensures Sound(names, opts, rows, ListResult(seen, false))
  {
    hide Wanted, Clean, PageOf;
    NextRows(rows, k);
    AllRows(rows, k);
    assert forall p :: p in RowsBefore(rows, PageLimit(opts)) ==> p in rows;
    hide RowsBefore;
  }

  lemma KeepNothing(names: Names, opts: ListOptions, seen: seq<string>)
    ensures KeepRows(names, opts, seen, []) == ListResult(seen, false)
  {
  }

  lemma RowsBeforeGrow(rows: seq<string>, a: nat, b: nat)
    requires a <= b
    ensures forall p :: p in RowsBefore(rows, a) ==> p in RowsBefore(rows, b)
  {
    assert a * BOARD_LIST_MAX <= b * BOARD_LIST_MAX;
    assert RowsBefore(rows, a) <= RowsBefore(rows, b);
  }

  /**
   * The listing never repeats a path or exceeds its bound, keeps only unhandled board paths, and
   * returns one whenever one lies within the pages it may read; an untruncated listing that read at
   * least one page is exactly the unhandled board paths.
   */
  lemma ListingIsExact(names: Names, opts: ListOptions, rows: seq<string>)
    ensures var r := ListFrom(names, opts, PageOf(rows), 0, [], false);
            && NoRepeats(r.paths) && |r.paths| <= PathLimit(opts)
            && (forall p :: p in r.paths ==> p in rows && Wanted(names, opts.exclude, p))
            && (!r.truncated && PageLimit(opts) > 0 ==> forall p :: p in rows && Wanted(names, opts.exclude, p) ==> p in r.paths)
            && ((exists p :: p in RowsBefore(rows, PageLimit(opts)) && Wanted(names, opts.exclude, p)) ==> r.paths != [])
  {
    ListFromIsSound(names, opts, rows, 0, [], false);
  }

  /**
   * When `truncated` is false the listing is complete for every row list exactly when the caller
   * allows at least one page: with none it reports an empty listing as complete.
   */
  lemma UntruncatedMeansCompleteIff(names: Names, opts: ListOptions, rows: seq<string>)
    ensures var r := ListFrom(names, opts, PageOf(rows), 0, [], false);
            (!r.truncated ==> forall p :: p in rows && Wanted(names, opts.exclude, p) ==> p in r.paths)
              <==> (PageLimit(opts) > 0 || forall p :: p in rows ==> !Wanted(names, opts.exclude, p))
  {
    ListFromIsSound(names, opts, rows, 0, [], false);
  }
}
