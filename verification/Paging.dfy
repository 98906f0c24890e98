/** Listing attacks: filters, order, pages and the walk over them. */
module Paging {
  import opened Lists
  import opened Intel
  import opened Store

  datatype SortColumn = ByTimestamp | ByRiskScore | BySourceIp | ByCountry | ByUsername | ByDuration

  datatype Query = Query(
    sort: SortColumn,
    ascending: bool,
    sourceIp: Option<string>,
    country: Option<string>,
    username: Option<string>,
    riskLevel: Option<Level>,
    minRisk: Option<int>,
    maxRisk: Option<int>,
    isMalicious: Option<bool>,
    incidentId: Option<nat>,
    dateFrom: Option<Instant>,
    dateTo: Option<Instant>)

  // ---------------------------------------------------------------- filters

  datatype Clause =
    | SourceIpIs(ip: string)
    | CountryIs(country: string)
    | UsernameIs(username: string)
    | LevelIs(level: Level)
    | RiskAtLeast(low: int)
    | RiskAtMost(high: int)
    | MaliciousIs(flag: bool)
    | IncidentIs(incident: nat)
    | NotBefore(from: Instant)
    | NotAfter(to: Instant)
  {
    predicate Holds(a: Attack) {
      match this
      case SourceIpIs(v) => a.sourceIp == v
      case CountryIs(v) => a.country == Some(v)
      case UsernameIs(v) => a.username == Some(v)
      case LevelIs(v) => a.riskLevel == v
      case RiskAtLeast(v) => a.riskScore >= v
      case RiskAtMost(v) => a.riskScore <= v
      case MaliciousIs(v) => a.isMalicious == v
      case IncidentIs(v) => a.incidentId == v
      case NotBefore(v) => a.timestamp >= v
      case NotAfter(v) => a.timestamp <= v
    }
  }

  /** The `where` clauses of a query, in the order they are added. */
  function Clauses(q: Query): seq<Clause> {
    (if Truthy(q.sourceIp) then [SourceIpIs(q.sourceIp.value)] else []) +
    (if Truthy(q.country) then [CountryIs(q.country.value)] else []) +
    (if Truthy(q.username) then [UsernameIs(q.username.value)] else []) +
    (if q.riskLevel.Some? then [LevelIs(q.riskLevel.value)] else []) +
    RangeClauses(q)
  }

  function RangeClauses(q: Query): seq<Clause> {
    (if q.minRisk.Some? then [RiskAtLeast(q.minRisk.value)] else []) +
    (if q.maxRisk.Some? then [RiskAtMost(q.maxRisk.value)] else []) +
    (if q.isMalicious.Some? then [MaliciousIs(q.isMalicious.value)] else []) +
    LinkClauses(q)
  }

  function LinkClauses(q: Query): seq<Clause> {
    (if q.incidentId.Some? then [IncidentIs(q.incidentId.value)] else []) +
    (if q.dateFrom.Some? then [NotBefore(q.dateFrom.value)] else []) +
    (if q.dateTo.Some? then [NotAfter(q.dateTo.value)] else [])
  }

  /** Filtering clause by clause. */
  function Apply(clauses: seq<Clause>, rows: seq<Attack>): seq<Attack> {
    if clauses == [] then rows
    else
      var last := clauses[|clauses| - 1];
      Filter((a: Attack) => last.Holds(a), Apply(clauses[..|clauses| - 1], rows))
  }

  /** What a row must satisfy: every filter that is given, and nothing else. */
  predicate Matches(a: Attack, q: Query) {
    (q.sourceIp.Some? && q.sourceIp.value != "" ==> a.sourceIp == q.sourceIp.value) &&
    (q.country.Some? && q.country.value != "" ==> a.country == q.country) &&
    (q.username.Some? && q.username.value != "" ==> a.username == q.username) &&
    (q.riskLevel.Some? ==> a.riskLevel == q.riskLevel.value) &&
    MatchesRanges(a, q)
  }

  predicate MatchesRanges(a: Attack, q: Query) {
    (q.minRisk.Some? ==> q.minRisk.value <= a.riskScore) &&
    (q.maxRisk.Some? ==> a.riskScore <= q.maxRisk.value) &&
    (q.isMalicious.Some? ==> a.isMalicious == q.isMalicious.value) &&
    (q.incidentId.Some? ==> a.incidentId == q.incidentId.value) &&
    (q.dateFrom.Some? ==> q.dateFrom.value <= a.timestamp) &&
    (q.dateTo.Some? ==> a.timestamp <= q.dateTo.value)
  }

  predicate AllHold(clauses: seq<Clause>, a: Attack) { forall i :: 0 <= i < |clauses| ==> clauses[i].Holds(a) }

  lemma AllHoldAppend(c: seq<Clause>, d: seq<Clause>, a: Attack)
    ensures AllHold(c + d, a) <==> AllHold(c, a) && AllHold(d, a)
  {
    var both := c + d;
    assert forall i :: 0 <= i < |c| ==> both[i] == c[i];
    assert forall i :: 0 <= i < |d| ==> both[|c| + i] == d[i];
  }

  /** Three optional clauses and a rest. */
  lemma FourPartsHold(c: seq<Clause>, d: seq<Clause>, e: seq<Clause>, f: seq<Clause>, a: Attack)
    ensures AllHold(c + d + e + f, a) <==> AllHold(c, a) && AllHold(d, a) && AllHold(e, a) && AllHold(f, a)
  {
    AllHoldAppend(c + d + e, f, a);
    AllHoldAppend(c + d, e, a);
    AllHoldAppend(c, d, a);
  }

  lemma RangeClausesMatch(a: Attack, q: Query)
    ensures AllHold(RangeClauses(q), a) <==> MatchesRanges(a, q)
  {
    var c1: seq<Clause> := if q.minRisk.Some? then [RiskAtLeast(q.minRisk.value)] else [];
    var c2: seq<Clause> := if q.maxRisk.Some? then [RiskAtMost(q.maxRisk.value)] else [];
    var c3: seq<Clause> := if q.isMalicious.Some? then [MaliciousIs(q.isMalicious.value)] else [];
    FourPartsHold(c1, c2, c3, LinkClauses(q), a);
    LinkClausesMatch(a, q);
    assert q.minRisk.Some? ==> c1[0] == RiskAtLeast(q.minRisk.value);
    assert q.maxRisk.Some? ==> c2[0] == RiskAtMost(q.maxRisk.value);
    assert q.isMalicious.Some? ==> c3[0] == MaliciousIs(q.isMalicious.value);
  }

  lemma LinkClausesMatch(a: Attack, q: Query)
    ensures AllHold(LinkClauses(q), a) <==>
      (q.incidentId.Some? ==> a.incidentId == q.incidentId.value) &&
      (q.dateFrom.Some? ==> q.dateFrom.value <= a.timestamp) && (q.dateTo.Some? ==> a.timestamp <= q.dateTo.value)
  {
    var c4: seq<Clause> := if q.incidentId.Some? then [IncidentIs(q.incidentId.value)] else [];
    var c5: seq<Clause> := if q.dateFrom.Some? then [NotBefore(q.dateFrom.value)] else [];
    var c6: seq<Clause> := if q.dateTo.Some? then [NotAfter(q.dateTo.value)] else [];
    AllHoldAppend(c4 + c5, c6, a);
    AllHoldAppend(c4, c5, a);
    assert q.incidentId.Some? ==> c4[0] == IncidentIs(q.incidentId.value);
    assert q.dateFrom.Some? ==> c5[0] == NotBefore(q.dateFrom.value);
    assert q.dateTo.Some? ==> c6[0] == NotAfter(q.dateTo.value);
  }

  lemma ClausesMatch(a: Attack, q: Query)
    ensures AllHold(Clauses(q), a) <==> Matches(a, q)
  {
    var c1: seq<Clause> := if Truthy(q.sourceIp) then [SourceIpIs(q.sourceIp.value)] else [];
    var c2: seq<Clause> := if Truthy(q.country) then [CountryIs(q.country.value)] else [];
    var c3: seq<Clause> := if Truthy(q.username) then [UsernameIs(q.username.value)] else [];
    var c4: seq<Clause> := if q.riskLevel.Some? then [LevelIs(q.riskLevel.value)] else [];
    AllHoldAppend(c1 + c2 + c3 + c4, RangeClauses(q), a);
    FourPartsHold(c1, c2, c3, c4, a);
    assert Truthy(q.sourceIp) ==> c1[0] == SourceIpIs(q.sourceIp.value);
    assert Truthy(q.country) ==> c2[0] == CountryIs(q.country.value);
    assert Truthy(q.username) ==> c3[0] == UsernameIs(q.username.value);
    assert q.riskLevel.Some? ==> c4[0] == LevelIs(q.riskLevel.value);
    RangeClausesMatch(a, q);
  }

  lemma {:induction false} FilterTwice<T>(p: T -> bool, q: T -> bool, r: T -> bool, rows: seq<T>)
    requires forall i :: 0 <= i < |rows| ==> r(rows[i]) == (q(rows[i]) && p(rows[i]))
    ensures Filter(p, Filter(q, rows)) == Filter(r, rows)
  {
    if rows != [] {
      var n := |rows| - 1;
      FilterTwice(p, q, r, rows[..n]);
      var f := Filter(q, rows[..n]);
      if q(rows[n]) {
        assert (f + [rows[n]])[..|f|] == f;
      } else {
        assert f + [] == f;
      }
    }
  }

  lemma {:induction false} FilterCong<T>(p: T -> bool, q: T -> bool, rows: seq<T>)
    requires forall i :: 0 <= i < |rows| ==> p(rows[i]) == q(rows[i])
    ensures Filter(p, rows) == Filter(q, rows)
  {
    if rows != [] { FilterCong(p, q, rows[..|rows| - 1]); }
  }

  lemma AllHoldLast(clauses: seq<Clause>, a: Attack)
    requires clauses != []
    ensures AllHold(clauses, a) == (AllHold(clauses[..|clauses| - 1], a) && clauses[|clauses| - 1].Holds(a))
  {
    assert clauses == clauses[..|clauses| - 1] + [clauses[|clauses| - 1]];
    AllHoldAppend(clauses[..|clauses| - 1], [clauses[|clauses| - 1]], a);
  }

  lemma {:induction false} ApplyIsFilter(clauses: seq<Clause>, r: Attack -> bool, rows: seq<Attack>)
    requires forall i :: 0 <= i < |rows| ==> r(rows[i]) == AllHold(clauses, rows[i])
    ensures Apply(clauses, rows) == Filter(r, rows)
  {
    if clauses == [] {
      FilterAll(r, rows);
    } else {
      var n := |clauses| - 1;
      var init := (a: Attack) => AllHold(clauses[..n], a);
      ApplyIsFilter(clauses[..n], init, rows);
      forall i | 0 <= i < |rows| ensures r(rows[i]) == (init(rows[i]) && clauses[n].Holds(rows[i])) {
        AllHoldLast(clauses, rows[i]);
      }
      FilterTwice((a: Attack) => clauses[n].Holds(a), init, r, rows);
    }
  }

  lemma {:induction false} FilterAll<T>(p: T -> bool, rows: seq<T>)
    requires forall i :: 0 <= i < |rows| ==> p(rows[i])
    ensures Filter(p, rows) == rows
  {
    if rows != [] { FilterAll(p, rows[..|rows| - 1]); }
  }

  /** Filtering clause by clause selects exactly the matching rows, in table order. */
  lemma FiltersMatch(rows: seq<Attack>, q: Query)
    ensures Apply(Clauses(q), rows) == Filter((a: Attack) => Matches(a, q), rows)
  {
    forall i | 0 <= i < |rows| ensures Matches(rows[i], q) == AllHold(Clauses(q), rows[i]) {
      ClausesMatch(rows[i], q);
    }
    ApplyIsFilter(Clauses(q), (a: Attack) => Matches(a, q), rows);
  }

  // ------------------------------------------------------------------ order

  /** How the database ranks the values of a column (text collation included). */
  type Ranking = (SortColumn, Attack) -> int

  predicate Before(rank: Ranking, q: Query, a: Attack, b: Attack) {
    if q.ascending then rank(q.sort, a) <= rank(q.sort, b) else rank(q.sort, a) >= rank(q.sort, b)
  }

  function Insert(rank: Ranking, q: Query, sorted: seq<Attack>, a: Attack): seq<Attack> {
    if sorted == [] || Before(rank, q, sorted[|sorted| - 1], a) then sorted + [a]
    else Insert(rank, q, sorted[..|sorted| - 1], a) + [sorted[|sorted| - 1]]
  }

  /** The rows in the requested order; ties stay in table order. */
  function Ordered(rank: Ranking, q: Query, rows: seq<Attack>): seq<Attack> {
    if rows == [] then [] else Insert(rank, q, Ordered(rank, q, rows[..|rows| - 1]), rows[|rows| - 1])
  }

  ghost predicate Sorted(rank: Ranking, q: Query, rows: seq<Attack>) {
    forall i, j :: 0 <= i < j < |rows| ==> Before(rank, q, rows[i], rows[j])
  }

  lemma {:induction false} InsertKeeps(rank: Ranking, q: Query, sorted: seq<Attack>, a: Attack)
    ensures multiset(Insert(rank, q, sorted, a)) == multiset(sorted) + multiset{a}
  {
    if sorted != [] && !Before(rank, q, sorted[|sorted| - 1], a) {
      var n := |sorted| - 1;
      InsertKeeps(rank, q, sorted[..n], a);
      assert sorted == sorted[..n] + [sorted[n]];
    }
  }

  lemma InsertElement(rank: Ranking, q: Query, sorted: seq<Attack>, a: Attack, i: nat)
    requires i < |Insert(rank, q, sorted, a)|
    ensures Insert(rank, q, sorted, a)[i] == a || Insert(rank, q, sorted, a)[i] in sorted
  {
    InsertKeeps(rank, q, sorted, a);
    assert Insert(rank, q, sorted, a)[i] in multiset(Insert(rank, q, sorted, a));
  }

  lemma SortedPrefix(rank: Ranking, q: Query, sorted: seq<Attack>, n: nat)
    requires Sorted(rank, q, sorted) && |sorted| == n + 1
    ensures Sorted(rank, q, sorted[..n])
    ensures forall x :: x in sorted[..n] ==> Before(rank, q, x, sorted[n])
  {
  }

  lemma SortedSnoc(rank: Ranking, q: Query, sorted: seq<Attack>, a: Attack)
    requires Sorted(rank, q, sorted) && forall i :: 0 <= i < |sorted| ==> Before(rank, q, sorted[i], a)
    ensures Sorted(rank, q, sorted + [a])
  {
  }

  lemma {:induction false} InsertSorts(rank: Ranking, q: Query, sorted: seq<Attack>, a: Attack)
    requires Sorted(rank, q, sorted)
    ensures Sorted(rank, q, Insert(rank, q, sorted, a))
  {
    if sorted != [] && !Before(rank, q, sorted[|sorted| - 1], a) {
      var n := |sorted| - 1;
      var r := Insert(rank, q, sorted[..n], a);
      SortedPrefix(rank, q, sorted, n);
      InsertSorts(rank, q, sorted[..n], a);
      forall i | 0 <= i < |r| ensures Before(rank, q, r[i], sorted[n]) {
        InsertElement(rank, q, sorted[..n], a, i);
      }
      SortedSnoc(rank, q, r, sorted[n]);
    }
  }

  lemma {:induction false} OrderedSorts(rank: Ranking, q: Query, rows: seq<Attack>)
    ensures Sorted(rank, q, Ordered(rank, q, rows))
    ensures multiset(Ordered(rank, q, rows)) == multiset(rows)
    ensures |Ordered(rank, q, rows)| == |rows|
  {
    if rows != [] {
      var n := |rows| - 1;
      OrderedSorts(rank, q, rows[..n]);
      InsertSorts(rank, q, Ordered(rank, q, rows[..n]), rows[n]);
      InsertKeeps(rank, q, Ordered(rank, q, rows[..n]), rows[n]);
      assert rows == rows[..n] + [rows[n]];
      assert |multiset(Ordered(rank, q, rows))| == |multiset(rows)|;
    }
  }

  // ------------------------------------------------------------------ pages

  /** OFFSET and LIMIT. */
  function Slice<T>(rows: seq<T>, offset: nat, limit: nat): seq<T> {
    if offset >= |rows| then []
    else if offset + limit >= |rows| then rows[offset..] else rows[offset..offset + limit]
  }

  function Offset(page: nat, perPage: nat): nat
    requires page >= 1
  {
    (page - 1) * perPage
  }

  /** The filtered, ordered list the pages are cut from. */
  function Listing(rank: Ranking, table: seq<Attack>, q: Query): seq<Attack> {
    Ordered(rank, q, Apply(Clauses(q), table))
  }

  /** The repository's answer: one page of rows, and the total of a separate count query. */
  function Paginate(rank: Ranking, table: seq<Attack>, q: Query, page: nat, perPage: nat): (seq<Attack>, nat)
    requires page >= 1
  {
    (Slice(Listing(rank, table, q), Offset(page, perPage), perPage), |Apply(Clauses(q), table)|)
  }

  /** The page metadata of the response. */
  datatype Meta = Meta(pages: nat, hasNext: bool, hasPrev: bool)

  function Paginated(page: nat, perPage: nat, total: nat): Meta {
    var pages := if perPage != 0 then (total + perPage - 1) / perPage else 0;
    Meta(pages, page < pages, page > 1)
  }

  /** Follow `has_next` from `page` on, over an unchanged table. */
  function Walk(rank: Ranking, table: seq<Attack>, q: Query, page: nat, perPage: nat): seq<seq<Attack>>
    requires page >= 1
    decreases Paginated(page, perPage, |Apply(Clauses(q), table)|).pages - page
  {
    var (items, total) := Paginate(rank, table, q, page, perPage);
    [items] + if Paginated(page, perPage, total).hasNext then Walk(rank, table, q, page + 1, perPage) else []
  }

  lemma Multiples(a: nat, b: nat, k: nat)
    requires a <= b
    ensures a * k <= b * k
  {
  }

  /** There is a next page exactly when rows remain beyond this one. */
  lemma {:induction false} NextPageIff(page: nat, perPage: nat, total: nat)
    requires perPage > 0
    ensures Paginated(page, perPage, total).hasNext <==> page * perPage < total
  {
    var pages, r := (total + perPage - 1) / perPage, (total + perPage - 1) % perPage;
    assert total + perPage - 1 == pages * perPage + r;
    if page < pages {
      Multiples(page + 1, pages, perPage);
      assert (page + 1) * perPage == page * perPage + perPage;
    } else {
      Multiples(pages, page, perPage);
    }
  }

  /** Every page but the last is full, and the last is not empty unless there is only one. */
  ghost predicate WellCut(pages: seq<seq<Attack>>, perPage: nat) {
    pages != [] &&
    (forall i :: 0 <= i < |pages| - 1 ==> |pages[i]| == perPage) &&
    |pages[|pages| - 1]| <= perPage && (|pages| > 1 ==> pages[|pages| - 1] != [])
  }

  /** One full page in front of a well-cut rest. */
  lemma CutStep(list: seq<Attack>, offset: nat, perPage: nat, rest: seq<seq<Attack>>)
    requires perPage > 0 && offset + perPage < |list|
    requires Flatten(rest) == list[offset + perPage..] && WellCut(rest, perPage) && rest[|rest| - 1] != []
    ensures
      var walk := [Slice(list, offset, perPage)] + rest;
      Flatten(walk) == list[offset..] && WellCut(walk, perPage) && walk[|walk| - 1] != []
  {
    var items := Slice(list, offset, perPage);
    var walk := [items] + rest;
    FlattenAppend([items], rest);
    FlattenOne(items);
    assert items + list[offset + perPage..] == list[offset..];
    forall i | 0 <= i < |walk| - 1 ensures |walk[i]| == perPage {
      if i > 0 { assert walk[i] == rest[i - 1]; }
    }
  }

  /** The last page. */
  lemma CutLast(list: seq<Attack>, offset: nat, perPage: nat)
    requires perPage > 0 && offset <= |list| <= offset + perPage
    ensures
      var walk := [Slice(list, offset, perPage)];
      Flatten(walk) == list[offset..] && WellCut(walk, perPage) && (offset < |list| ==> walk[0] != [])
  {
    FlattenOne(Slice(list, offset, perPage));
  }

  lemma NextOffset(page: nat, perPage: nat)
    requires page >= 1
    ensures Offset(page + 1, perPage) == Offset(page, perPage) + perPage == page * perPage
  {
  }

  /** The walk from a page whose offset lies inside the list. */
  lemma {:induction false} WalkFrom(rank: Ranking, table: seq<Attack>, q: Query, page: nat, perPage: nat,
                                    list: seq<Attack>, offset: nat)
    requires page >= 1 && perPage > 0 && offset == Offset(page, perPage)
    requires list == Listing(rank, table, q) && |list| == |Apply(Clauses(q), table)|
    requires offset == 0 || offset < |list|
    ensures
      var walk := Walk(rank, table, q, page, perPage);
      Flatten(walk) == list[offset..] && WellCut(walk, perPage) && (offset < |list| ==> walk[|walk| - 1] != []) &&
      page + |walk| - 1 == Max(page, Paginated(page, perPage, |list|).pages)
    decreases Paginated(page, perPage, |Apply(Clauses(q), table)|).pages - page
  {
    NextPageIff(page, perPage, |list|);
    NextOffset(page, perPage);
    if Paginated(page, perPage, |list|).hasNext {
      WalkFrom(rank, table, q, page + 1, perPage, list, offset + perPage);
      CutStep(list, offset, perPage, Walk(rank, table, q, page + 1, perPage));
    } else {
      CutLast(list, offset, perPage);
    }
  }

  lemma FlattenOne(items: seq<Attack>)
    ensures Flatten([items]) == items
  {
    assert [items][..0] == [];
  }

  lemma ListingIsSorted(rank: Ranking, table: seq<Attack>, q: Query)
    ensures |Listing(rank, table, q)| == |Apply(Clauses(q), table)|
    ensures Sorted(rank, q, Listing(rank, table, q))
    ensures multiset(Listing(rank, table, q)) == multiset(Filter((a: Attack) => Matches(a, q), table))
  {
    OrderedSorts(rank, q, Apply(Clauses(q), table));
    FiltersMatch(table, q);
  }

  /** The listing has exactly the matching rows, each as often as the table, with ranks that never
      fall when the order is ascending and never rise otherwise; its length is the counted total. */
  lemma ListingIsSelection(rank: Ranking, table: seq<Attack>, q: Query)
    ensures |Listing(rank, table, q)| == |Apply(Clauses(q), table)|
    ensures forall a :: multiset(Listing(rank, table, q))[a] == if Matches(a, q) then multiset(table)[a] else 0
    ensures
      var list := Listing(rank, table, q);
      forall i, j :: 0 <= i < j < |list| ==>
        if q.ascending then rank(q.sort, list[i]) <= rank(q.sort, list[j])
        else rank(q.sort, list[i]) >= rank(q.sort, list[j])
  {
    ListingIsSorted(rank, table, q);
    forall a ensures multiset(Listing(rank, table, q))[a] == if Matches(a, q) then multiset(table)[a] else 0 {
      FilterIsSelection((x: Attack) => Matches(x, q), table, a);
    }
  }

  lemma SliceMeans<T>(rows: seq<T>, offset: nat, limit: nat, i: nat)
    ensures |Slice(rows, offset, limit)| == if offset >= |rows| then 0 else Min(limit, |rows| - offset)
    ensures i < |Slice(rows, offset, limit)| ==>
      offset + i < |rows| && Slice(rows, offset, limit)[i] == rows[offset + i]
  {
  }

  /** A page holds the rows of the listing from its offset on, `perPage` of them or what is left;
      the total is the number of matching rows. */
  lemma PageIsSlice(rank: Ranking, table: seq<Attack>, q: Query, page: nat, perPage: nat, before: nat, i: nat)
    requires page >= 1 && before == (page - 1) * perPage
    ensures
      var list, items := Listing(rank, table, q), Paginate(rank, table, q, page, perPage).0;
      |items| == (if before >= |list| then 0 else Min(perPage, |list| - before)) &&
      (i < |items| ==> before + i < |list| && items[i] == list[before + i])
    ensures Paginate(rank, table, q, page, perPage).1 == |Listing(rank, table, q)|
  {
    ListingIsSorted(rank, table, q);
    assert Paginate(rank, table, q, page, perPage).0 == Slice(Listing(rank, table, q), before, perPage);
    SliceMeans(Listing(rank, table, q), before, perPage, i);
  }

  /** `pages` is the least number of pages that hold all rows, and there is a previous page
      exactly when rows or empty pages come before this one. */
  lemma MetaMeans(page: nat, perPage: nat, total: nat)
    requires perPage > 0 && page >= 1
    ensures
      var meta := Paginated(page, perPage, total);
      total <= meta.pages * perPage < total + perPage && (meta.hasPrev <==> (page - 1) * perPage > 0)
  {
    var sum := total + perPage - 1;
    assert sum == sum / perPage * perPage + sum % perPage;
    if page > 1 { Multiples(1, page - 1, perPage); }
  }

  lemma WalkFromFirst(rank: Ranking, table: seq<Attack>, q: Query, perPage: nat, list: seq<Attack>)
    requires perPage > 0 && list == Listing(rank, table, q) && |list| == |Apply(Clauses(q), table)|
    ensures Flatten(Walk(rank, table, q, 1, perPage)) == list && WellCut(Walk(rank, table, q, 1, perPage), perPage)
    ensures |Walk(rank, table, q, 1, perPage)| == Max(1, Paginated(1, perPage, |list|).pages)
  {
    WalkFrom(rank, table, q, 1, perPage, list, 0);
    assert list[0..] == list;
  }

  /** Pagination walk: from page 1 it stops after max(1, pages) pages, which
      concatenated are exactly the listing; all pages but the last are full. */
  lemma WalkCoversListing(rank: Ranking, table: seq<Attack>, q: Query, perPage: nat)
    requires perPage > 0
    ensures
      var list, walk := Listing(rank, table, q), Walk(rank, table, q, 1, perPage);
      Flatten(walk) == list && WellCut(walk, perPage) &&
      |walk| == Max(1, Paginated(1, perPage, |list|).pages)
  {
    ListingIsSorted(rank, table, q);
    WalkFromFirst(rank, table, q, perPage, Listing(rank, table, q));
  }
}
