/**
 Page arithmetic and ordering: which rows a page holds, and why separately fetched pages fit together.
 */
module PaginatorPages {
  import opened Options

  datatype Direction = Asc | Desc

  datatype Order = Order(column: string, dir: Direction)

  /** A row as the ORDER BY sees it: the rank of each column's value in that column's order. */
  type Row = map<string, int>

  function Rank(row: Row, column: string): int {
    if column in row then row[column] else 0
  }

  // ---------------------------------------------------------------- request parameters

  /** `page`: what parseInt made of the parameter, with 0 and garbage read as 1. */
  function PageNumber(parsed: Option<int>): (page: int)
    ensures page >= 1
    ensures page == 1 <==> parsed.None? || parsed.value <= 1
    ensures parsed.Some? && parsed.value >= 1 ==> page == parsed.value
  {
    var n := if parsed.None? || parsed.value == 0 then 1 else parsed.value;
    if n < 1 then 1 else n
  }

  /** `per_page`: at least 1, at most 100, and 15 for 0 and garbage. */
  function PerPage(parsed: Option<int>): (perPage: int)
    ensures 1 <= perPage <= 100
    ensures parsed.None? || parsed.value == 0 ==> perPage == 15
    ensures parsed.Some? && 1 <= parsed.value <= 100 ==> perPage == parsed.value
    ensures parsed.Some? && parsed.value < 0 ==> perPage == 1
    ensures parsed.Some? && parsed.value > 100 ==> perPage == 100
  {
    var n := if parsed.None? || parsed.value == 0 then 15 else parsed.value;
    if n < 1 then 1 else if n > 100 then 100 else n
  }

  /** The ordering: a whitelisted or the default column, then the tie-breaker if it is another one. */
  function OrderBy(allowed: set<string>, sortBy: string, defaultSort: string, sortDir: string, defaultDir: Direction,
                   tieBreaker: Option<string>): (order: seq<Order>)
    ensures |order| > 0 && (order[0].column in allowed || order[0].column == defaultSort)
    ensures sortBy in allowed ==> order[0].column == sortBy
    ensures forall i :: 0 <= i < |order| ==>
              (order[i].dir.Asc? <==> sortDir == "asc" || (sortDir == "" && defaultDir.Asc?))
    ensures tieBreaker.Some? ==> order[|order| - 1].column == tieBreaker.value
  {
    var column := if sortBy in allowed then sortBy else defaultSort;
    var dir := if sortDir == "" then defaultDir else if sortDir == "asc" then Asc else Desc;
    [Order(column, dir)] + if tieBreaker.Some? && tieBreaker.value != column then [Order(tieBreaker.value, dir)] else []
  }

  // ---------------------------------------------------------------- one sorted result

  /** Lexicographic comparison: negative, zero or positive. */
  function Compare(order: seq<Order>, a: Row, b: Row): int
    decreases |order|
  {
    if order == [] then 0
    else
      var d := if order[0].dir.Asc? then Rank(a, order[0].column) - Rank(b, order[0].column)
               else Rank(b, order[0].column) - Rank(a, order[0].column);
      if d != 0 then d else Compare(order[1..], a, b)
  }

  predicate Sorted(order: seq<Order>, rows: seq<Row>) {
    forall i, j :: 0 <= i < j < |rows| ==> Compare(order, rows[i], rows[j]) <= 0
  }

  /** What the database may return for this filter and ORDER BY. */
  predicate IsResult(order: seq<Order>, rows: multiset<Row>, result: seq<Row>) {
    multiset(result) == rows && Sorted(order, result)
  }

  /** No two rows agree in `column`, and no row occurs twice. */
  predicate UniqueColumn(rows: multiset<Row>, column: string) {
    && (forall r :: r in rows ==> rows[r] == 1)
    && (forall r, q :: r in rows && q in rows && Rank(r, column) == Rank(q, column) ==> r == q)
  }

  lemma {:induction false} CompareFlips(order: seq<Order>, a: Row, b: Row)
    ensures Compare(order, a, b) == -Compare(order, b, a)
    decreases |order|
  {
    if order != [] { CompareFlips(order[1..], a, b); }
  }

  lemma {:induction false} CompareTransitive(order: seq<Order>, a: Row, b: Row, c: Row)
    requires Compare(order, a, b) <= 0 && Compare(order, b, c) <= 0
    ensures Compare(order, a, c) <= 0
    decreases |order|
  {
    if order != [] {
      var o := order[0];
      if Rank(a, o.column) == Rank(b, o.column) == Rank(c, o.column) {
        CompareTransitive(order[1..], a, b, c);
      }
    }
  }

  /** Rows that compare equal agree in every column of the ordering. */
  lemma {:induction false} CompareZero(order: seq<Order>, a: Row, b: Row, k: nat)
    requires Compare(order, a, b) == 0 && k < |order|
    ensures Rank(a, order[k].column) == Rank(b, order[k].column)
    decreases |order|
  {
    if k > 0 { CompareZero(order[1..], a, b, k - 1); }
  }

  /** Two sorted results with a unique last column start with the same row. */
  lemma SameFirst(order: seq<Order>, rows: multiset<Row>, s: seq<Row>, t: seq<Row>)
    requires |order| > 0 && UniqueColumn(rows, order[|order| - 1].column)
    requires IsResult(order, rows, s) && IsResult(order, rows, t) && |s| > 0 && |t| > 0
    ensures s[0] == t[0]
  {
    assert s[0] in multiset(s) && t[0] in multiset(t);
    var i :| 0 <= i < |t| && t[i] == s[0];
    var j :| 0 <= j < |s| && s[j] == t[0];
    CompareFlips(order, s[0], s[0]);
    CompareFlips(order, t[0], t[0]);
    assert Compare(order, t[0], s[0]) <= 0 && Compare(order, s[0], t[0]) <= 0;
    CompareFlips(order, s[0], t[0]);
    CompareZero(order, s[0], t[0], |order| - 1);
  }

  lemma TailResult(order: seq<Order>, rows: multiset<Row>, s: seq<Row>)
    requires IsResult(order, rows, s) && |s| > 0
    ensures IsResult(order, rows - multiset{s[0]}, s[1..])
  {
    assert s == [s[0]] + s[1..];
  }

  lemma TailUnique(rows: multiset<Row>, column: string, r: Row)
    requires UniqueColumn(rows, column)
    ensures UniqueColumn(rows - multiset{r}, column)
  {
  }

  lemma SameCons(s: seq<Row>, t: seq<Row>)
    requires |s| > 0 && |t| > 0 && s[0] == t[0] && s[1..] == t[1..]
    ensures s == t
  {
  }

  /** With a unique tie-breaker the ORDER BY has at most one sorted result. */
  lemma {:induction false} ResultIsUnique(order: seq<Order>, rows: multiset<Row>, s: seq<Row>, t: seq<Row>)
    requires |order| > 0 && UniqueColumn(rows, order[|order| - 1].column)
    requires IsResult(order, rows, s) && IsResult(order, rows, t)
    ensures s == t
    decreases |s|
  {
    assert |s| == |multiset(s)| && |t| == |multiset(t)|;
    if |s| > 0 {
      SameFirst(order, rows, s, t);
      TailResult(order, rows, s);
      TailResult(order, rows, t);
      TailUnique(rows, order[|order| - 1].column, s[0]);
      ResultIsUnique(order, rows - multiset{s[0]}, s[1..], t[1..]);
      SameCons(s, t);
    }
  }

  /** Without a tie-breaker, duplicates in the sort column leave the order open. */
  lemma OrderIsOpenWithoutTieBreaker()
    ensures var order := OrderBy({"createdAt"}, "createdAt", "createdAt", "asc", Desc, None);
            var a, b: Row := map["createdAt" := 1, "id" := 1], map["createdAt" := 1, "id" := 2];
            IsResult(order, multiset{a, b}, [a, b]) && IsResult(order, multiset{a, b}, [b, a]) && [a, b] != [b, a]
  {
    var order := OrderBy({"createdAt"}, "createdAt", "createdAt", "asc", Desc, None);
    var a, b: Row := map["createdAt" := 1, "id" := 1], map["createdAt" := 1, "id" := 2];
    assert order[1..] == [];
    assert Compare(order, a, b) == 0 && Compare(order, b, a) == 0;
    assert a["id"] != b["id"];
  }

  /** Inserts a row into a sorted result. */
  function InsertRow(order: seq<Order>, row: Row, rows: seq<Row>): seq<Row>
    decreases |rows|
  {
    if rows == [] || Compare(order, row, rows[0]) <= 0 then [row] + rows
    else [rows[0]] + InsertRow(order, row, rows[1..])
  }

  lemma {:induction false} InsertAdds(order: seq<Order>, row: Row, rows: seq<Row>)
    ensures multiset(InsertRow(order, row, rows)) == multiset(rows) + multiset{row}
    decreases |rows|
  {
    if rows != [] && Compare(order, row, rows[0]) > 0 {
      InsertAdds(order, row, rows[1..]);
      assert rows == [rows[0]] + rows[1..];
    }
  }

  lemma ConsSorted(order: seq<Order>, first: Row, rest: seq<Row>)
    requires Sorted(order, rest)
    requires forall r :: r in multiset(rest) ==> Compare(order, first, r) <= 0
    ensures Sorted(order, [first] + rest)
  {
  }

  lemma FirstIsLeast(order: seq<Order>, row: Row, rows: seq<Row>, r: Row)
    requires Sorted(order, rows) && rows != [] && r in multiset(rows) && Compare(order, row, rows[0]) <= 0
    ensures Compare(order, row, r) <= 0
  {
    var k :| 0 <= k < |rows| && rows[k] == r;
    if k > 0 { CompareTransitive(order, row, rows[0], rows[k]); }
  }

  lemma {:induction false} InsertKeepsSorted(order: seq<Order>, row: Row, rows: seq<Row>)
    requires Sorted(order, rows)
    ensures Sorted(order, InsertRow(order, row, rows))
    decreases |rows|
  {
    if rows != [] && Compare(order, row, rows[0]) > 0 {
      var rest := InsertRow(order, row, rows[1..]);
      InsertKeepsSorted(order, row, rows[1..]);
      InsertAdds(order, row, rows[1..]);
      CompareFlips(order, row, rows[0]);
      forall r | r in multiset(rest) ensures Compare(order, rows[0], r) <= 0 {
        if r != row { assert r in multiset(rows[1..]); }
      }
      ConsSorted(order, rows[0], rest);
    } else {
      forall r | r in multiset(rows) ensures Compare(order, row, r) <= 0 {
        FirstIsLeast(order, row, rows, r);
      }
      ConsSorted(order, row, rows);
    }
  }

  /** Every finite set of rows has a sorted result. */
  lemma {:induction false} ResultExists(order: seq<Order>, rows: multiset<Row>) returns (s: seq<Row>)
    ensures IsResult(order, rows, s)
    decreases |rows|
  {
    if |rows| == 0 {
      s := [];
    } else {
      var r :| r in rows;
      var rest := ResultExists(order, rows - multiset{r});
      InsertKeepsSorted(order, r, rest);
      InsertAdds(order, r, rest);
      s := InsertRow(order, r, rest);
      assert rows == rows - multiset{r} + multiset{r};
    }
  }

  // ---------------------------------------------------------------- pages

  function Least(a: int, b: int): int {
    if a < b then a else b
  }

  function Skip(page: int, perPage: int): int {
    (page - 1) * perPage
  }

  /** OFFSET and LIMIT on a result. */
  function Page(result: seq<Row>, page: int, perPage: int): seq<Row>
    requires page >= 1 && perPage >= 1
  {
    var from := Least(Skip(page, perPage), |result|);
    result[from..Least(from + perPage, |result|)]
  }

  function LastPage(total: nat, perPage: int): (last: int)
    requires perPage >= 1
    ensures last >= 1
    ensures (last - 1) * perPage < total <= last * perPage || (total == 0 && last == 1)
  {
    var ceiling := (total + perPage - 1) / perPage;
    if ceiling < 1 then 1 else ceiling
  }

  /** `from` and `to` of the response. */
  function Bounds(total: nat, page: int, perPage: int): Option<(int, int)> {
    if total == 0 then None
    else Some((Skip(page, perPage) + 1, Least(Skip(page, perPage) + perPage, total)))
  }

  /** The bounds are the 1-based positions of the page's first and last row, or absent with no rows. */
  predicate BoundsExact(result: seq<Row>, page: int, perPage: int)
    requires page >= 1 && perPage >= 1
  {
    match Bounds(|result|, page, perPage)
    case None => Page(result, page, perPage) == []
    case Some((from, to)) => 1 <= from <= to <= |result| && Page(result, page, perPage) == result[from - 1..to]
  }

  lemma SkipGrows(page: int, last: int, perPage: int)
    requires perPage >= 1
    ensures page <= last ==> Skip(page, perPage) <= Skip(last, perPage)
    ensures page > last ==> Skip(page, perPage) >= Skip(last, perPage) + perPage
    ensures Skip(last, perPage) + perPage == last * perPage
  {
  }

  /** `from` and `to` are exact for every page up to the last one, and for no page beyond it unless there
      are no rows at all. */
  lemma BoundsExactUpToLastPage(result: seq<Row>, page: int, perPage: int)
    requires page >= 1 && perPage >= 1
    ensures BoundsExact(result, page, perPage) <==> page <= LastPage(|result|, perPage) || result == []
  {
    var total, last := |result|, LastPage(|result|, perPage);
    SkipGrows(page, last, perPage);
    SkipGrows(1, page, perPage);
    if total > 0 && page <= last {
      assert Skip(last, perPage) < total;
    }
  }

  /** The pages from `page` on, each cut from the result its own query returned. */
  function Pages(results: seq<seq<Row>>, page: int, perPage: int): seq<Row>
    requires page >= 1 && perPage >= 1
    decreases |results|
  {
    if results == [] then [] else Page(results[0], page, perPage) + Pages(results[1..], page + 1, perPage)
  }

  function Cut(result: seq<Row>, n: int): (c: nat)
    requires n >= 0
    ensures c <= |result|
  {
    Least(n, |result|)
  }

  lemma JoinCuts(result: seq<Row>, a: int, b: int, c: int)
    requires 0 <= a <= b <= c
    ensures result[Cut(result, a)..Cut(result, b)] + result[Cut(result, b)..Cut(result, c)] == result[Cut(result, a)..Cut(result, c)]
  {
  }

  lemma PageIsCut(result: seq<Row>, page: int, perPage: int)
    requires page >= 1 && perPage >= 1
    ensures Skip(page, perPage) >= 0 && Skip(page + 1, perPage) == Skip(page, perPage) + perPage
    ensures Page(result, page, perPage) == result[Cut(result, Skip(page, perPage))..Cut(result, Skip(page + 1, perPage))]
  {
  }

  /** The pages from `page` on are one stretch of the result. */
  lemma {:induction false} PagesAreTheRest(result: seq<Row>, results: seq<seq<Row>>, page: int, perPage: int)
    requires page >= 1 && perPage >= 1
    requires forall i :: 0 <= i < |results| ==> results[i] == result
    ensures 0 <= Skip(page, perPage) <= Skip(page + |results|, perPage)
    ensures Pages(results, page, perPage) ==
              result[Cut(result, Skip(page, perPage))..Cut(result, Skip(page + |results|, perPage))]
    decreases |results|
  {
    PageIsCut(result, page, perPage);
    if results != [] {
      PagesAreTheRest(result, results[1..], page + 1, perPage);
      JoinCuts(result, Skip(page, perPage), Skip(page + 1, perPage), Skip(page + |results|, perPage));
    }
  }

  lemma AllPages(result: seq<Row>, results: seq<seq<Row>>, perPage: int)
    requires perPage >= 1 && |results| == LastPage(|result|, perPage)
    requires forall i :: 0 <= i < |results| ==> results[i] == result
    ensures Pages(results, 1, perPage) == result
  {
    PagesAreTheRest(result, results, 1, perPage);
    assert Skip(1, perPage) == 0 && Skip(1 + |results|, perPage) == |results| * perPage;
    assert result[0..|result|] == result;
  }

  /** Pages 1 to the last one, fetched separately, are together exactly the one sorted result: no row is
      repeated and none is skipped. */
  lemma PagesPartition(order: seq<Order>, rows: multiset<Row>, results: seq<seq<Row>>, perPage: int, result: seq<Row>)
    requires |order| > 0 && UniqueColumn(rows, order[|order| - 1].column) && perPage >= 1
    requires |results| == LastPage(|rows|, perPage)
    requires forall i :: 0 <= i < |results| ==> IsResult(order, rows, results[i])
    requires IsResult(order, rows, result)
    ensures Pages(results, 1, perPage) == result
    ensures multiset(Pages(results, 1, perPage)) == rows
  {
    assert |result| == |multiset(result)|;
    forall i | 0 <= i < |results| ensures results[i] == result {
      ResultIsUnique(order, rows, results[i], result);
    }
    AllPages(result, results, perPage);
  }
}
