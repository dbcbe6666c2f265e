/** The paged list of streams. */
module Paging {
  import opened Common

  const MAX_LIMIT: int := 100
  const DEFAULT_LIMIT: int := 20

  function Max(a: int, b: int): int {
    if a < b then b else a
  }

  function Min(a: int, b: int): int {
    if a < b then a else b
  }

  function PageNumber(page: Option<int>): int {
    Max(1, page.GetOr(1))
  }

  function Limit(limit: Option<int>): int {
    Min(MAX_LIMIT, Max(1, limit.GetOr(DEFAULT_LIMIT)))
  }

  /** A limit from 1 to 100 is the one used, twenty if none is asked, and the nearest of these otherwise. */
  lemma LimitIs(limit: Option<int>)
    ensures limit == None ==> Limit(limit) == 20
    ensures forall asked :: limit == Some(asked) ==>
      && (1 <= asked <= 100 ==> Limit(limit) == asked)
      && (asked < 1 ==> Limit(limit) == 1) && (asked > 100 ==> Limit(limit) == 100)
  {
  }

  /** Page n has the rows from number (n - 1) * limit up to, not including, n * limit, as far as there are any. */
  lemma PageIs<T>(rows: seq<T>, page: Option<int>, limit: Option<int>)
    ensures var n := if page.Some? && page.value > 1 then page.value else 1;
            Skip(n, Limit(limit)) == (n - 1) * Limit(limit)
    ensures var n := if page.Some? && page.value > 1 then page.value else 1;
            var from, l := Skip(n, Limit(limit)), Limit(limit);
            Page(rows, page, limit) == rows[Min(from, |rows|)..Min(from + l, |rows|)]
  {
    var n := if page.Some? && page.value > 1 then page.value else 1;
    assert PageNumber(page) == n && Limit(limit) >= 1;
    hide PageNumber, Limit, Skip, Page;
    SkipIsProduct(n, Limit(limit));
    PageSlice(rows, page, limit);
  }

  lemma PageSlice<T>(rows: seq<T>, page: Option<int>, limit: Option<int>)
    ensures var from, l := Skip(PageNumber(page), Limit(limit)), Limit(limit);
            l >= 1 && Page(rows, page, limit) == rows[Min(from, |rows|)..Min(from + l, |rows|)]
  {
    hide Skip;
  }

  /** `.skip(skip).take(limit)` on the filtered rows in their order. */
  function Slice<T>(rows: seq<T>, skip: nat, limit: nat): seq<T> {
    if skip >= |rows| then []
    else if skip + limit <= |rows| then rows[skip..skip + limit]
    else rows[skip..]
  }

  /** `(page - 1) * limit`. */
  function Skip(page: int, limit: int): nat
    requires page >= 1 && limit >= 1
    decreases page
  {
    if page == 1 then 0 else Skip(page - 1, limit) + limit
  }

  lemma {:induction false} SkipIsProduct(page: int, limit: int)
    requires page >= 1 && limit >= 1
    ensures Skip(page, limit) == (page - 1) * limit
    decreases page
  {
    if page > 1 {
      SkipIsProduct(page - 1, limit);
      assert (page - 1) * limit == (page - 2) * limit + limit;
    }
  }

  function Page<T>(rows: seq<T>, page: Option<int>, limit: Option<int>): seq<T> {
    Slice(rows, Skip(PageNumber(page), Limit(limit)), Limit(limit))
  }

  /** `Math.ceil(total / limit) || 1`. */
  function TotalPages(total: nat, limit: Option<int>): int {
    Max(1, (total + Limit(limit) - 1) / Limit(limit))
  }

  /** The pages 1 to n, one after the other. */
  function Pages<T>(rows: seq<T>, n: nat, l: int): seq<T>
    requires l >= 1
  {
    if n == 0 then [] else Pages(rows, n - 1, l) + Slice(rows, Skip(n, l), l)
  }

  lemma SliceExtends<T>(rows: seq<T>, skip: nat, l: nat)
    ensures rows[..Min(skip, |rows|)] + Slice(rows, skip, l) == rows[..Min(skip + l, |rows|)]
  {
  }

  lemma {:induction false} PagesArePrefix<T>(rows: seq<T>, n: nat, l: int)
    requires l >= 1
    ensures Pages(rows, n, l) == rows[..Min(Skip(n + 1, l), |rows|)]
    decreases n
  {
    if n > 0 {
      PagesArePrefix(rows, n - 1, l);
      SliceExtends(rows, Skip(n, l), l);
    }
  }

  lemma {:induction false} SkipMonotone(page: int, later: int, l: int)
    requires 1 <= page <= later && l >= 1
    ensures Skip(page, l) + (later - page) <= Skip(later, l)
    decreases later
  {
    if page < later { SkipMonotone(page, later - 1, l); }
  }

  lemma CeilingCovers(total: nat, l: int)
    requires l >= 1
    ensures var n := (total + l - 1) / l; n >= 0 && n * l >= total && (n - 1) * l < total
  {
    var n := (total + l - 1) / l;
    assert (n - 1) * l == n * l - l;
  }

  lemma EnoughPages(total: nat, l: int, n: int)
    requires l >= 1 && n == Max(1, (total + l - 1) / l)
    ensures Skip(n + 1, l) >= total
    ensures if total == 0 then n == 1 else Skip(n, l) < total
  {
    CeilingCovers(total, l);
    SkipIsProduct(n + 1, l);
    SkipIsProduct(n, l);
  }

  lemma PagesCover<T>(rows: seq<T>, l: int, n: int, page: int)
    requires l >= 1 && n >= 1 && page >= 1
    requires Skip(n + 1, l) >= |rows| && (if rows == [] then n == 1 else Skip(n, l) < |rows|)
    ensures var slice := Slice(rows, Skip(page, l), l);
            && Pages(rows, n, l) == rows
            && (page < n ==> |slice| == l)
            && (page > n ==> slice == [])
            && (page == n && rows != [] ==> 0 < |slice|)
            && |slice| <= l
  {
    PagesArePrefix(rows, n, l);
    if page < n { SkipMonotone(page + 1, n, l); }
    if page > n { SkipMonotone(n + 1, page, l); }
  }

  /**
   The pages 1 to totalPages are the whole list; all but the last are full, later ones empty,
   and no page has more than 100 rows whatever limit is asked for.
   */
  lemma PagingLosesNothing<T>(rows: seq<T>, limit: Option<int>, page: int)
    requires page >= 1
    ensures var n, l := TotalPages(|rows|, limit), Limit(limit);
            && n >= 1 && Pages(rows, n, l) == rows
            && (page < n ==> |Page(rows, Some(page), limit)| == l)
            && (page > n ==> Page(rows, Some(page), limit) == [])
            && (page == n && rows != [] ==> 0 < |Page(rows, Some(page), limit)|)
            && |Page(rows, Some(page), limit)| <= l <= MAX_LIMIT
  {
    var n, l := TotalPages(|rows|, limit), Limit(limit);
    EnoughPages(|rows|, l, n);
    PagesCover(rows, l, n, page);
  }
}

/** The summary of Wowza connections. */
module Connections {
  datatype Connection = Connection(id: string, applicationName: string, protocol: string)

  datatype Summary = Summary(total: nat, byApplication: map<string, nat>, byProtocol: map<string, nat>)

  /** How many connections have the key. */
  ghost function Having(keys: seq<string>, key: string): nat {
    multiset(keys)[key]
  }

  /** The sum of the values of a record. */
  ghost function Total(counts: map<string, nat>): nat {
    if counts == map[] then 0
    else
      var key :| key in counts;
      counts[key] + Total(counts - {key})
  }

  lemma {:induction false} TotalSplit(counts: map<string, nat>, key: string)
    requires key in counts
    ensures Total(counts) == counts[key] + Total(counts - {key})
    decreases |counts|
  {
    var other :| other in counts && Total(counts) == counts[other] + Total(counts - {other});
    if other != key {
      TotalSplit(counts - {other}, key);
      TotalSplit(counts - {key}, other);
      assert counts - {other} - {key} == counts - {key} - {other};
    }
  }

  /** `record[key] = (record[key] ?? 0) + 1`. */
  function Bump(counts: map<string, nat>, key: string): map<string, nat> {
    counts[key := (if key in counts then counts[key] else 0) + 1]
  }

  lemma BumpAddsOne(counts: map<string, nat>, key: string)
    ensures Total(Bump(counts, key)) == Total(counts) + 1
  {
    TotalSplit(Bump(counts, key), key);
    if key in counts { TotalSplit(counts, key); }
    assert Bump(counts, key) - {key} == counts - {key};
    assert key !in counts ==> counts - {key} == counts;
  }

  function Applications(connections: seq<Connection>): seq<string> {
    seq(|connections|, i requires 0 <= i < |connections| => connections[i].applicationName)
  }

  function Protocols(connections: seq<Connection>): seq<string> {
    seq(|connections|, i requires 0 <= i < |connections| => connections[i].protocol)
  }

  ghost predicate Counts(counts: map<string, nat>, keys: seq<string>) {
    && (forall key :: key in counts <==> key in keys)
    && (forall key :: key in counts ==> counts[key] == Having(keys, key))
    && Total(counts) == |keys|
  }

  lemma CountOneMore(counts: map<string, nat>, keys: seq<string>, i: nat)
    requires i < |keys| && Counts(counts, keys[..i])
    ensures Counts(Bump(counts, keys[i]), keys[..i + 1])
  {
    BumpAddsOne(counts, keys[i]);
    assert keys[..i + 1] == keys[..i] + [keys[i]];
  }

  /** Each entry is the number of connections with that key, and each record sums to the total. */
  method GetConnections(connections: seq<Connection>) returns (s: Summary)
    ensures s.total == |connections|
    ensures Counts(s.byApplication, Applications(connections))
    ensures Counts(s.byProtocol, Protocols(connections))
  {
    ghost var applications, protocols := Applications(connections), Protocols(connections);
    var byApplication, byProtocol: map<string, nat> := map[], map[];
    for i := 0 to |connections|
      invariant Counts(byApplication, applications[..i])
      invariant Counts(byProtocol, protocols[..i])
    {
      CountOneMore(byApplication, applications, i);
      CountOneMore(byProtocol, protocols, i);
      byApplication := Bump(byApplication, connections[i].applicationName);
      byProtocol := Bump(byProtocol, connections[i].protocol);
    }
    assert applications[..|connections|] == applications && protocols[..|connections|] == protocols;
    s := Summary(|connections|, byApplication, byProtocol);
  }
}
