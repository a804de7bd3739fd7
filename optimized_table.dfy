/**
  The client-side table pipeline of src/components/ui/OptimizedTable.tsx:
  a case-insensitive search over every field of a row, a single-key sort
  with an ascending/descending toggle (done in place on a copy of the
  rows), page slicing, the page count, and the Previous/Next buttons.
 */
module OptimizedTable {
  import opened Common
  import Text
  import Lists

  /** A field value of a row: a number (with its `String(value)` rendering,
      which is what the search looks at), a string, a boolean, `null`, or a
      field that is present but holds `undefined`. */
  datatype Cell = Num(value: real, text: string) | Str(s: string) | Bool(b: bool) | Null | Undefined

  /** A row: field name to value (`Object.values(item)` are its values). */
  type Row = map<string, Cell>

  /** `String(value)`. */
  function Show(c: Cell): string {
    match c
    case Num(_, t) => t
    case Str(s) => s
    case Bool(b) => if b then "true" else "false"
    case Null => "null"
    case Undefined => "undefined"
  }

  // ---------------------------------------------------------------- search

  /** Some field of the row, lower-cased, contains the lower-cased term. */
  predicate Matches(row: Row, term: string) {
    exists k :: k in row && Text.Contains(Text.Lower(Show(row[k])), Text.Lower(term))
  }

  /** The search step of `filteredAndSortedData`: skipped for an empty term,
      otherwise `filter` with Matches. */
  function SearchFilter(rows: seq<Row>, term: string): seq<Row> {
    if term == "" then rows else Lists.Filter(rows, (r: Row) => Matches(r, term))
  }

  /** The search keeps a subsequence of the rows: with an empty term all of
      them in order, otherwise exactly those matching the term. */
  lemma SearchFilterSpec(rows: seq<Row>, term: string)
    ensures term == "" ==> SearchFilter(rows, term) == rows
    ensures Lists.IsSubsequence(SearchFilter(rows, term), rows)
    ensures term != "" ==> forall i :: 0 <= i < |rows| ==> (rows[i] in SearchFilter(rows, term) <==> Matches(rows[i], term))
    ensures term != "" ==> |SearchFilter(rows, term)| == Lists.Count(rows, (r: Row) => Matches(r, term))
  {
    if term == "" {
      Lists.SubsequenceReflexive(rows);
    } else {
      forall i | 0 <= i < |rows|
        ensures rows[i] in SearchFilter(rows, term) <==> Matches(rows[i], term)
      {
        Lists.FilterMembership(rows, (r: Row) => Matches(r, term), rows[i]);
      }
      Lists.FilterLength(rows, (r: Row) => Matches(r, term));
    }
  }

  /** The term's letter case does not change what the search keeps. */
  lemma SearchIgnoresTermCase(rows: seq<Row>, t1: string, t2: string)
    requires Text.Lower(t1) == Text.Lower(t2)
    ensures SearchFilter(rows, t1) == SearchFilter(rows, t2)
  {
    if t1 != "" {
      Lists.FilterSamePredicate(rows, (r: Row) => Matches(r, t1), (r: Row) => Matches(r, t2));
    }
  }

  // ------------------------------------------------------------- ordering

  /** `<` on two strings: lexicographic order on characters. JavaScript
      compares UTF-16 code units; on `char`, a Unicode scalar value, this is
      code-point order, which agrees with it below U+10000. */
  predicate StrLess(s: string, t: string) {
    if s == [] then t != []
    else if t == [] then false
    else if s[0] != t[0] then s[0] < t[0]
    else StrLess(s[1..], t[1..])
  }

  lemma {:induction false} StrLessIrreflexive(s: string)
    ensures !StrLess(s, s)
  {
    if s != [] {
      StrLessIrreflexive(s[1..]);
    }
  }

  lemma {:induction false} StrLessTransitive(s: string, t: string, u: string)
    requires StrLess(s, t) && StrLess(t, u)
    ensures StrLess(s, u)
  {
    if s != [] && t != [] && u != [] && s[0] == t[0] && t[0] == u[0] {
      StrLessTransitive(s[1..], t[1..], u[1..]);
    }
  }

  lemma {:induction false} StrLessTotal(s: string, t: string)
    ensures s == t || StrLess(s, t) || StrLess(t, s)
  {
    if s != [] && t != [] && s[0] == t[0] {
      StrLessTotal(s[1..], t[1..]);
      if s[1..] == t[1..] {
        assert s == [s[0]] + s[1..] && t == [t[0]] + t[1..];
      }
    }
  }

  /** How the sort compares two values of the sort key. Numbers compare by
      value, strings by StrLess and booleans with false before true, as `<`
      does; `null` is not less than `null`, nor `undefined` than `undefined`.
      On a column whose values are of mixed kinds or missing, `<` is not a
      consistent comparison and the order `sort` produces is left to the
      engine; there the model places missing and undefined values first,
      then null, booleans, numbers and strings. */
  function Rank(c: Option<Cell>): nat {
    match c
    case None => 0
    case Some(Undefined) => 0
    case Some(Null) => 1
    case Some(Bool(_)) => 2
    case Some(Num(_, _)) => 3
    case Some(Str(_)) => 4
  }

  predicate KeyLess(a: Option<Cell>, b: Option<Cell>) {
    if Rank(a) != Rank(b) then Rank(a) < Rank(b)
    else match (a, b)
      case (Some(Num(x, _)), Some(Num(y, _))) => x < y
      case (Some(Str(x)), Some(Str(y))) => StrLess(x, y)
      case (Some(Bool(x)), Some(Bool(y))) => !x && y
      case _ => false
  }

  /** "Not less than" is transitive and total: KeyLess is a strict weak order. */
  lemma KeyNotLessTransitive(a: Option<Cell>, b: Option<Cell>, c: Option<Cell>)
    requires !KeyLess(b, a) && !KeyLess(c, b)
    ensures !KeyLess(c, a)
  {
    if Rank(a) == Rank(b) == Rank(c) && a.Some? && a.value.Str? {
      var x, y, z := a.value.s, b.value.s, c.value.s;
      StrLessTotal(x, y);
      StrLessTotal(y, z);
      if StrLess(z, x) {
        if StrLess(x, y) { StrLessTransitive(z, x, y); }
        if StrLess(y, z) && x == y { StrLessIrreflexive(z); StrLessTransitive(y, z, x); }
        if StrLess(x, y) && StrLess(y, z) { StrLessTransitive(x, y, z); StrLessTransitive(x, z, x); StrLessIrreflexive(x); }
      }
    }
  }

  lemma KeyLessAsymmetric(a: Option<Cell>, b: Option<Cell>)
    ensures !(KeyLess(a, b) && KeyLess(b, a))
  {
    if Rank(a) == Rank(b) && a.Some? && a.value.Str? && KeyLess(a, b) && KeyLess(b, a) {
      StrLessTransitive(a.value.s, b.value.s, a.value.s);
      StrLessIrreflexive(a.value.s);
    }
  }

  datatype Direction = Asc | Desc
  datatype SortConfig = SortConfig(key: string, direction: Direction)

  /** `a[sortConfig.key]`; undefined when the row has no such field. */
  function KeyOf(row: Row, key: string): Option<Cell> {
    if key in row then Some(row[key]) else None
  }

  /** The comparator handed to `result.sort`. */
  function Compare(a: Row, b: Row, cfg: SortConfig): (r: int)
    ensures -1 <= r <= 1
  {
    var x, y := KeyOf(a, cfg.key), KeyOf(b, cfg.key);
    if KeyLess(x, y) then (if cfg.direction == Asc then -1 else 1)
    else if KeyLess(y, x) then (if cfg.direction == Asc then 1 else -1)
    else 0
  }

  /** `a` may stand before `b` in a sorted result. */
  predicate Precedes(a: Row, b: Row, cfg: SortConfig) {
    Compare(a, b, cfg) <= 0
  }

  /** Ascending: keys never decrease; descending: keys never increase. */
  lemma PrecedesMeaning(a: Row, b: Row, cfg: SortConfig)
    ensures cfg.direction == Asc ==> (Precedes(a, b, cfg) <==> !KeyLess(KeyOf(b, cfg.key), KeyOf(a, cfg.key)))
    ensures cfg.direction == Desc ==> (Precedes(a, b, cfg) <==> !KeyLess(KeyOf(a, cfg.key), KeyOf(b, cfg.key)))
  {
    KeyLessAsymmetric(KeyOf(a, cfg.key), KeyOf(b, cfg.key));
  }

  lemma PrecedesTotal(a: Row, b: Row, cfg: SortConfig)
    ensures Precedes(a, b, cfg) || Precedes(b, a, cfg)
  {
    KeyLessAsymmetric(KeyOf(a, cfg.key), KeyOf(b, cfg.key));
  }

  lemma PrecedesTransitive(a: Row, b: Row, c: Row, cfg: SortConfig)
    requires Precedes(a, b, cfg) && Precedes(b, c, cfg)
    ensures Precedes(a, c, cfg)
  {
    var x, y, z := KeyOf(a, cfg.key), KeyOf(b, cfg.key), KeyOf(c, cfg.key);
    PrecedesMeaning(a, b, cfg);
    PrecedesMeaning(b, c, cfg);
    PrecedesMeaning(a, c, cfg);
    if cfg.direction == Asc {
      KeyNotLessTransitive(x, y, z);
    } else {
      KeyNotLessTransitive(z, y, x);
    }
  }

  predicate Sorted(s: seq<Row>, cfg: SortConfig) {
    forall p, q :: 0 <= p < q < |s| ==> Precedes(s[p], s[q], cfg)
  }

  /** The comparator's order as a value, the form the sort works with. */
  function Order(cfg: SortConfig): (Row, Row) -> bool {
    (x: Row, y: Row) => Precedes(x, y, cfg)
  }

  /** `le` is total: any two rows are ordered one way or the other. */
  ghost predicate TotalOrder(le: (Row, Row) -> bool) {
    forall x, y :: le(x, y) || le(y, x)
  }

  ghost predicate TransitiveOrder(le: (Row, Row) -> bool) {
    forall x, y, z :: le(x, y) && le(y, z) ==> le(x, z)
  }

  /** The rows `le` cannot tell apart from `x`. */
  function TiedWith(x: Row, le: (Row, Row) -> bool): Row -> bool {
    (y: Row) => le(x, y) && le(y, x)
  }

  /** The rows of `s` tied with `x`, in their order in `s`. A sort is stable
      when it keeps this subsequence for every `x`. */
  function Ties(s: seq<Row>, x: Row, le: (Row, Row) -> bool): seq<Row> {
    Lists.Filter(s, TiedWith(x, le))
  }

  /** The comparator's order is total and transitive. */
  lemma OrderIsPreorder(cfg: SortConfig)
    ensures TotalOrder(Order(cfg)) && TransitiveOrder(Order(cfg))
  {
    var le := Order(cfg);
    forall x, y ensures le(x, y) || le(y, x) {
      PrecedesTotal(x, y, cfg);
    }
    forall x, y, z | le(x, y) && le(y, z) ensures le(x, z) {
      PrecedesTransitive(x, y, z, cfg);
    }
  }

  /** `result.sort(comparator)`, in place: an insertion sort, which is
      stable, as `Array.prototype.sort` is. */
  method SortInPlace(a: array<Row>, cfg: SortConfig)
    modifies a
    ensures Sorted(a[..], cfg)
    ensures multiset(a[..]) == multiset(old(a[..]))
    ensures forall x :: Ties(a[..], x, Order(cfg)) == Ties(old(a[..]), x, Order(cfg))
  {
    var le := Order(cfg);
    OrderIsPreorder(cfg);
    if a.Length == 0 {
      return;
    }
    var i := 1;
    while i < a.Length
      invariant 1 <= i <= a.Length
      invariant forall p, q :: 0 <= p < q < i ==> le(a[p], a[q])
      invariant multiset(a[..]) == multiset(old(a[..]))
      invariant forall x :: Ties(a[..], x, le) == Ties(old(a[..]), x, le)
    {
      InsertStep(a, i, le);
      i := i + 1;
    }
  }

  /** One pass of the insertion sort: a[i] sinks into the prefix a[..i],
      sorted by `le`, which then extends to a[..i + 1]. It only passes rows
      strictly after it, so tied rows keep their order. */
  method InsertStep(a: array<Row>, i: int, le: (Row, Row) -> bool)
    requires TotalOrder(le) && TransitiveOrder(le)
    requires 1 <= i < a.Length
    requires forall p, q :: 0 <= p < q < i ==> le(a[p], a[q])
    modifies a
    ensures forall p, q :: 0 <= p < q <= i ==> le(a[p], a[q])
    ensures multiset(a[..]) == multiset(old(a[..]))
    ensures forall x :: Ties(a[..], x, le) == Ties(old(a[..]), x, le)
  {
    var j := i;
    while j > 0 && !le(a[j - 1], a[j])
      invariant 0 <= j <= i
      invariant forall p, q :: 0 <= p < q <= i && p != j && q != j ==> le(a[p], a[q])
      invariant forall q :: j < q <= i ==> le(a[j], a[q])
      invariant multiset(a[..]) == multiset(old(a[..]))
      invariant forall x :: Ties(a[..], x, le) == Ties(old(a[..]), x, le)
    {
      SwapDown(a, j, le);
      j := j - 1;
    }
  }

  /** Exchanges two cells of the array. */
  method Swap(a: array<Row>, x: int, y: int)
    requires 0 <= x < a.Length && 0 <= y < a.Length
    modifies a
    ensures a[..] == old(a[..])[x := old(a[y])][y := old(a[x])]
    ensures multiset(a[..]) == multiset(old(a[..]))
  {
    a[x], a[y] := a[y], a[x];
  }

  /** Exchanges a[j] with its left neighbour when the two are strictly out
      of order, which keeps every run of tied rows. */
  method SwapDown(a: array<Row>, j: int, le: (Row, Row) -> bool)
    requires TransitiveOrder(le)
    requires 1 <= j < a.Length && !le(a[j - 1], a[j])
    modifies a
    ensures a[..] == old(a[..])[j - 1 := old(a[j])][j := old(a[j - 1])]
    ensures multiset(a[..]) == multiset(old(a[..]))
    ensures forall x :: Ties(a[..], x, le) == Ties(old(a[..]), x, le)
  {
    SwapKeepsTies(a[..], j, le);
    Swap(a, j - 1, j);
  }

  /** Exchanging two neighbours that are strictly out of order keeps every
      run of tied rows: the two are not tied, so at most one of them is tied
      with any given row. */
  lemma SwapKeepsTies(s: seq<Row>, j: int, le: (Row, Row) -> bool)
    requires TransitiveOrder(le)
    requires 1 <= j < |s| && !le(s[j - 1], s[j])
    ensures forall x :: Ties(s[j - 1 := s[j]][j := s[j - 1]], x, le) == Ties(s, x, le)
  {
    var t := s[j - 1 := s[j]][j := s[j - 1]];
    var u, v := s[j - 1], s[j];
    var pre, post := s[..j - 1], s[j + 1..];
    assert s == pre + [u, v] + post;
    assert t == pre + [v, u] + post;
    forall x
      ensures Ties(t, x, le) == Ties(s, x, le)
    {
      var keep := TiedWith(x, le);
      assert !(keep(u) && keep(v));
      PairFilter(u, v, keep);
      PairFilter(v, u, keep);
      Lists.FilterAppend(pre + [u, v], post, keep);
      Lists.FilterAppend(pre, [u, v], keep);
      Lists.FilterAppend(pre + [v, u], post, keep);
      Lists.FilterAppend(pre, [v, u], keep);
    }
  }

  lemma PairFilter(u: Row, v: Row, keep: Row -> bool)
    ensures Lists.Filter([u, v], keep) == (if keep(u) then [u] else []) + (if keep(v) then [v] else [])
  {
    var one := Lists.Filter([v], keep);
    assert [v][1..] == [];
    assert one == (if keep(v) then [v] else []);
    assert [u, v][1..] == [v];
    assert Lists.Filter([u, v], keep) == (if keep(u) then [u] else []) + one;
  }

  /** Two sorted sequences that list every run of tied rows alike are equal:
      a stable sort of given rows has exactly one possible result. */
  lemma StableSortUnique(r1: seq<Row>, r2: seq<Row>, cfg: SortConfig)
    requires Sorted(r1, cfg) && Sorted(r2, cfg)
    requires forall x :: Ties(r1, x, Order(cfg)) == Ties(r2, x, Order(cfg))
    ensures r1 == r2
  {
    OrderIsPreorder(cfg);
    SortedTiesUnique(r1, r2, Order(cfg));
  }

  lemma {:induction false} SortedTiesUnique(r1: seq<Row>, r2: seq<Row>, le: (Row, Row) -> bool)
    requires TotalOrder(le)
    requires forall p, q :: 0 <= p < q < |r1| ==> le(r1[p], r1[q])
    requires forall p, q :: 0 <= p < q < |r2| ==> le(r2[p], r2[q])
    requires forall x :: Ties(r1, x, le) == Ties(r2, x, le)
    ensures r1 == r2
    decreases |r1|
  {
    BothEmptyOrNot(r1, r2, le);
    if r1 != [] {
      HeadsEqual(r1, r2, le);
      var t1, t2 := r1[1..], r2[1..];
      TailTies(r1, r2, le);
      SortedTail(r1, le);
      SortedTail(r2, le);
      SortedTiesUnique(t1, t2, le);
      assert r1 == [r1[0]] + t1 && r2 == [r2[0]] + t2;
    }
  }

  /** Both heads come first in their sequences, so they are tied with each
      other and each opens the other's run: they are the same row. */
  lemma HeadsEqual(r1: seq<Row>, r2: seq<Row>, le: (Row, Row) -> bool)
    requires TotalOrder(le) && r1 != [] && r2 != []
    requires forall p, q :: 0 <= p < q < |r1| ==> le(r1[p], r1[q])
    requires forall p, q :: 0 <= p < q < |r2| ==> le(r2[p], r2[q])
    requires forall x :: Ties(r1, x, le) == Ties(r2, x, le)
    ensures r1[0] == r2[0]
  {
    var h1, h2 := r1[0], r2[0];
    HeadsTied(r1, r2, le);
    TiesCons(r1, h1, le);
    TiesCons(r2, h1, le);
    assert TiedWith(h1, le)(h1);
    assert Ties(r1, h1, le)[0] == h1;
    assert Ties(r2, h1, le)[0] == h2;
  }

  /** Each head comes no later than the other, so the two are tied. */
  lemma HeadsTied(r1: seq<Row>, r2: seq<Row>, le: (Row, Row) -> bool)
    requires TotalOrder(le) && r1 != [] && r2 != []
    requires forall p, q :: 0 <= p < q < |r1| ==> le(r1[p], r1[q])
    requires forall p, q :: 0 <= p < q < |r2| ==> le(r2[p], r2[q])
    requires forall x :: Ties(r1, x, le) == Ties(r2, x, le)
    ensures TiedWith(r1[0], le)(r2[0])
  {
    InOther(r2, r1, r2[0], le);
    InOther(r1, r2, r1[0], le);
    HeadFirst(r1, r2[0], le);
    HeadFirst(r2, r1[0], le);
  }

  lemma TailTies(r1: seq<Row>, r2: seq<Row>, le: (Row, Row) -> bool)
    requires r1 != [] && r2 != [] && r1[0] == r2[0]
    requires forall x :: Ties(r1, x, le) == Ties(r2, x, le)
    ensures forall x :: Ties(r1[1..], x, le) == Ties(r2[1..], x, le)
  {
    forall x
      ensures Ties(r1[1..], x, le) == Ties(r2[1..], x, le)
    {
      TiesCons(r1, x, le);
      TiesCons(r2, x, le);
    }
  }

  lemma SortedTail(r: seq<Row>, le: (Row, Row) -> bool)
    requires r != []
    requires forall p, q :: 0 <= p < q < |r| ==> le(r[p], r[q])
    ensures forall p, q :: 0 <= p < q < |r| - 1 ==> le(r[1..][p], r[1..][q])
  {
    forall p, q | 0 <= p < q < |r| - 1 ensures le(r[1..][p], r[1..][q]) {
      assert r[1..][p] == r[p + 1] && r[1..][q] == r[q + 1];
    }
  }

  /** The run of rows tied with `x` starts at the head when the head is one. */
  lemma TiesCons(r: seq<Row>, x: Row, le: (Row, Row) -> bool)
    requires r != []
    ensures Ties(r, x, le) == (if TiedWith(x, le)(r[0]) then [r[0]] else []) + Ties(r[1..], x, le)
  {
  }

  /** Every row is tied with itself, so it shows up in its own run. */
  lemma InOther(r1: seq<Row>, r2: seq<Row>, x: Row, le: (Row, Row) -> bool)
    requires TotalOrder(le) && Ties(r1, x, le) == Ties(r2, x, le)
    requires x in r2
    ensures x in r1
  {
    assert TiedWith(x, le)(x);
    Lists.FilterMembership(r2, TiedWith(x, le), x);
    Lists.FilterMembership(r1, TiedWith(x, le), x);
  }

  lemma BothEmptyOrNot(r1: seq<Row>, r2: seq<Row>, le: (Row, Row) -> bool)
    requires TotalOrder(le)
    requires forall x :: Ties(r1, x, le) == Ties(r2, x, le)
    ensures r1 == [] <==> r2 == []
  {
    if r1 != [] {
      InOther(r2, r1, r1[0], le);
    }
    if r2 != [] {
      InOther(r1, r2, r2[0], le);
    }
  }

  /** The head of a sorted sequence comes no later than any of its rows. */
  lemma HeadFirst(r: seq<Row>, y: Row, le: (Row, Row) -> bool)
    requires TotalOrder(le)
    requires forall p, q :: 0 <= p < q < |r| ==> le(r[p], r[q])
    requires y in r
    ensures le(r[0], y)
  {
    var k :| 0 <= k < |r| && r[k] == y;
    if k == 0 {
      assert le(y, y) || le(y, y);
    }
  }

  /** `filteredAndSortedData`: a copy of the rows, searched when the term is
      non-empty, then sorted in place when a sort is set. The result is a
      permutation of the searched rows; without a sort it is exactly them,
      with one it is ordered by the comparator and rows the comparator
      ranks equal keep their searched order. */
  method FilteredAndSorted(data: seq<Row>, term: string, cfg: Option<SortConfig>) returns (r: seq<Row>)
    ensures multiset(r) == multiset(SearchFilter(data, term))
    ensures cfg.None? ==> r == SearchFilter(data, term)
    ensures cfg.Some? ==> Sorted(r, cfg.value)
    ensures cfg.Some? ==> forall x :: Ties(r, x, Order(cfg.value)) == Ties(SearchFilter(data, term), x, Order(cfg.value))
  {
    var result := SearchFilter(data, term);
    if cfg.Some? {
      var a := new Row[|result|](k requires 0 <= k < |result| => result[k]);
      assert a[..] == result;
      SortInPlace(a, cfg.value);
      r := a[..];
    } else {
      r := result;
    }
  }

  // ----------------------------------------------------------- pagination

  /** `rows.slice(start, end)` for start, end >= 0. */
  function Slice<T>(rows: seq<T>, start: nat, end: nat): (r: seq<T>)
    ensures |r| <= if end >= start then end - start else 0
  {
    var lo := if start < |rows| then start else |rows|;
    var hi := if end < |rows| then end else |rows|;
    if hi <= lo then [] else rows[lo..hi]
  }

  /** `paginatedData` for page `page` (1-based). */
  function Page<T>(rows: seq<T>, page: nat, pageSize: nat): (r: seq<T>)
    requires page >= 1
    ensures |r| <= pageSize
    ensures (page - 1) * pageSize >= |rows| ==> r == []
    ensures (page - 1) * pageSize < |rows| ==>
      r == rows[(page - 1) * pageSize..if page * pageSize < |rows| then page * pageSize else |rows|]
  {
    var start := (page - 1) * pageSize;
    Slice(rows, start, start + pageSize)
  }

  /** `Math.ceil(n / pageSize)`. */
  function TotalPages(n: nat, pageSize: nat): (t: nat)
    requires pageSize >= 1
    ensures (t - 1) * pageSize < n <= t * pageSize || (n == 0 && t == 0)
  {
    (n + pageSize - 1) / pageSize
  }

  /** Row i is on page i / pageSize + 1, which lies in 1..TotalPages, and on
      no other page; there it sits at offset i % pageSize. */
  lemma RowOnExactlyOnePage<T>(rows: seq<T>, pageSize: nat, i: nat)
    requires pageSize >= 1 && i < |rows|
    ensures var p := i / pageSize + 1;
      && 1 <= p <= TotalPages(|rows|, pageSize)
      && i % pageSize < |Page(rows, p, pageSize)|
      && Page(rows, p, pageSize)[i % pageSize] == rows[i]
    ensures forall p: nat :: p >= 1 && (p - 1) * pageSize <= i < p * pageSize ==> p == i / pageSize + 1
  {
    var d := i / pageSize;
    DivBounds(i, pageSize);
    PageWithinTotal(|rows|, pageSize, i);
    var page := Page(rows, d + 1, pageSize);
    assert (d + 1 - 1) * pageSize == d * pageSize;
    assert (d + 1) * pageSize == d * pageSize + pageSize;
    assert page[i % pageSize] == rows[d * pageSize + i % pageSize];
    forall q: nat | q >= 1 && (q - 1) * pageSize <= i < q * pageSize
      ensures q == d + 1
    {
      PageIndexUnique(q, i, pageSize);
    }
  }

  lemma DivBounds(i: nat, pageSize: nat)
    requires pageSize >= 1
    ensures (i / pageSize) * pageSize <= i < (i / pageSize) * pageSize + pageSize
    ensures i == (i / pageSize) * pageSize + i % pageSize
  {
  }

  /** The page of a row index is no later than the last page. */
  lemma PageWithinTotal(n: nat, pageSize: nat, i: nat)
    requires pageSize >= 1 && i < n
    ensures i / pageSize + 1 <= TotalPages(n, pageSize)
  {
    var t := TotalPages(n, pageSize);
    var d := i / pageSize;
    DivBounds(i, pageSize);
    if d + 1 > t {
      MulMonotone(t, d, pageSize);
      assert false;
    }
  }

  lemma MulMonotone(a: nat, b: nat, c: nat)
    requires a <= b
    ensures a * c <= b * c
  {
  }

  lemma PageIndexUnique(q: nat, i: nat, pageSize: nat)
    requires pageSize >= 1 && q >= 1 && (q - 1) * pageSize <= i < q * pageSize
    ensures q == i / pageSize + 1
  {
    var d := i / pageSize;
    DivBounds(i, pageSize);
    if q - 1 < d {
      MulMonotone(q, d, pageSize);
    } else if q - 1 > d {
      MulMonotone(d + 1, q - 1, pageSize);
    }
  }

  // ----------------------------------------------------------- sort toggle

  /** `handleSort(key)`: descending only when the same key is currently
      ascending; every other click sorts ascending on the clicked key. */
  function NextSort(current: Option<SortConfig>, key: string): (r: SortConfig)
    ensures r.key == key
    ensures r.direction == Desc <==> current == Some(SortConfig(key, Asc))
  {
    SortConfig(key, if current.Some? && current.value.key == key && current.value.direction == Asc then Desc else Asc)
  }

  /** Clicking the same header keeps alternating: from any state, the second
      click on a key is descending and the third ascending again. */
  lemma {:induction false} SortClicksAlternate(current: Option<SortConfig>, key: string)
    ensures NextSort(Some(NextSort(current, key)), key).direction == if NextSort(current, key).direction == Asc then Desc else Asc
    ensures NextSort(Some(NextSort(Some(NextSort(current, key)), key)), key) == NextSort(current, key) || NextSort(current, key).direction == Desc
  {
  }

  // ------------------------------------------------------------ UI state

  /** The table's own state: `searchTerm`, `sortConfig`, `currentPage`. */
  class Table {
    const pageSize: nat
    var searchTerm: string
    var sortConfig: Option<SortConfig>
    var currentPage: nat

    ghost predicate Valid()
      reads this
    {
      pageSize >= 1 && currentPage >= 1
    }

    constructor (pageSize: nat)
      requires pageSize >= 1
      ensures this.pageSize == pageSize && Valid()
      ensures searchTerm == "" && sortConfig == None && currentPage == 1
    {
      this.pageSize := pageSize;
      searchTerm := "";
      sortConfig := None;
      currentPage := 1;
    }

    /** The search box's onChange. The page is not reset. */
    method SetSearchTerm(term: string)
      requires Valid()
      modifies this`searchTerm
      ensures Valid() && searchTerm == term
    {
      searchTerm := term;
    }

    method HandleSort(key: string)
      requires Valid()
      modifies this`sortConfig
      ensures Valid() && sortConfig == Some(NextSort(old(sortConfig), key))
    {
      sortConfig := Some(NextSort(sortConfig, key));
    }

    /** Previous: `max(1, p - 1)`. */
    method PreviousPage()
      requires Valid()
      modifies this`currentPage
      ensures Valid()
      ensures currentPage == if old(currentPage) > 1 then old(currentPage) - 1 else 1
      ensures currentPage <= old(currentPage)
    {
      currentPage := if currentPage - 1 > 1 then currentPage - 1 else 1;
    }

    /** `totalPages` for the `data` prop: it counts the searched rows, which
        the sort only reorders. */
    function PageCount(data: seq<Row>): nat
      requires pageSize >= 1
      reads this`searchTerm
    {
      TotalPages(|SearchFilter(data, searchTerm)|, pageSize)
    }

    /** What the table shows for the `data` prop: `filteredAndSortedData`,
        `paginatedData` and `totalPages`. */
    method View(data: seq<Row>) returns (rows: seq<Row>, page: seq<Row>, totalPages: nat)
      requires Valid()
      ensures multiset(rows) == multiset(SearchFilter(data, searchTerm))
      ensures sortConfig.None? ==> rows == SearchFilter(data, searchTerm)
      ensures sortConfig.Some? ==> Sorted(rows, sortConfig.value)
      ensures sortConfig.Some? ==> forall x :: Ties(rows, x, Order(sortConfig.value)) == Ties(SearchFilter(data, searchTerm), x, Order(sortConfig.value))
      ensures page == Page(rows, currentPage, pageSize)
      ensures totalPages == TotalPages(|rows|, pageSize) == PageCount(data)
    {
      rows := FilteredAndSorted(data, searchTerm, sortConfig);
      page := Page(rows, currentPage, pageSize);
      totalPages := TotalPages(|rows|, pageSize);
      assert |rows| == |multiset(rows)| == |multiset(SearchFilter(data, searchTerm))| == |SearchFilter(data, searchTerm)|;
    }

    /** Next: `min(totalPages, p + 1)`; the controls are shown only when
        totalPages > 1. */
    method NextPage(data: seq<Row>)
      requires Valid() && PageCount(data) > 1
      modifies this`currentPage
      ensures Valid()
      ensures currentPage == if old(currentPage) + 1 < PageCount(data) then old(currentPage) + 1 else PageCount(data)
      ensures currentPage <= PageCount(data)
    {
      var totalPages := PageCount(data);
      currentPage := if currentPage + 1 < totalPages then currentPage + 1 else totalPages;
    }

    /** One of the numbered buttons, which show pages 1..min(5, totalPages). */
    method GoToPage(page: nat, data: seq<Row>)
      requires Valid() && 1 <= page <= PageCount(data) && page <= 5
      modifies this`currentPage
      ensures Valid() && currentPage == page
    {
      currentPage := page;
    }
  }
}
