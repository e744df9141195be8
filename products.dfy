/**
 * The SQL text the catalog endpoints build: the filtered product listing,
 * which numbers its placeholders as it appends clauses, and the `$1,...,$n`
 * list of the lookup by ids (shared with the payment-intent price query).
 */
module Products {
  import opened Common

  /** The placeholder `$k`. */
  function Dollar(k: nat): (r: string)
    ensures |r| >= 2 && r[0] == '$'
  {
    "$" + NatToString(k)
  }

  /** A placeholder holds no separator other than a digit or `$`. */
  lemma DollarFree(k: nat, c: char)
    requires !IsDigit(c) && c != '$'
    ensures Free(Dollar(k), c)
  {
    var s := Dollar(k);
    forall i | 0 <= i < |s| ensures s[i] != c {
      if i > 0 {
        assert s[i] == NatToString(k)[i - 1];
      }
    }
  }

  /** Placeholders tell their numbers apart. */
  lemma DollarInjective(a: nat, b: nat)
    requires Dollar(a) == Dollar(b)
    ensures a == b
  {
    assert NatToString(a) == Dollar(a)[1..];
    assert NatToString(b) == Dollar(b)[1..];
    NatToStringInjective(a, b);
  }

  // ---------------------------------------------------------------------------
  // The `$1,...,$n` list

  function DollarList(n: nat): (r: seq<string>)
    ensures |r| == n && forall i :: 0 <= i < n ==> r[i] == Dollar(i + 1)
  {
    seq(n, i requires 0 <= i < n => Dollar(i + 1))
  }

  /** `ids.map((_, i) => '$' + (i + 1)).join(',')`. */
  function Placeholders(n: nat): string {
    Join(DollarList(n), ",")
  }

  /**
   * The list splits at its commas into exactly `$1`, ..., `$n`: as many
   * placeholders as values, numbered from 1 in order, and no empty piece (so
   * no trailing comma).
   */
  lemma {:induction false} PlaceholdersSplit(n: nat)
    requires n >= 1
    ensures Split(Placeholders(n), ',') == DollarList(n)
    ensures |Split(Placeholders(n), ',')| == n
    ensures forall i :: 0 <= i < n ==> Split(Placeholders(n), ',')[i] != ""
  {
    var parts := DollarList(n);
    forall k | 0 <= k < |parts| ensures Free(parts[k], ',') {
      DollarFree(k + 1, ',');
    }
    SplitJoin(parts, ',');
  }

  lemma PlaceholdersFree(n: nat, c: char)
    requires !IsDigit(c) && c != '$' && c != ','
    ensures Free(Placeholders(n), c)
  {
    var parts := DollarList(n);
    forall k | 0 <= k < |parts| ensures Free(parts[k], c) {
      DollarFree(k + 1, c);
    }
    JoinFree(parts, ",", c);
  }

  datatype SqlQuery = SqlQuery(sql: string, params: seq<string>)

  /** POST by_ids: a missing or empty id list is refused; otherwise one placeholder per id, the ids as parameters in order. */
  function ByIds(ids: Option<seq<string>>): (r: Http<SqlQuery>)
    ensures ids.None? || ids.value == [] <==> r == Fail(400, "Missing ids")
    ensures r.Fail? <==> ids.None? || ids.value == []
    ensures r.Ok? ==> r.code == 200 && r.body.params == ids.value
    ensures r.Ok? ==> Split(InList(r.body.sql), ',') == DollarList(|ids.value|)
    ensures r.Ok? ==> |Split(InList(r.body.sql), ',')| == |r.body.params|
  {
    if ids.None? || ids.value == [] then Fail(400, "Missing ids")
    else
      var sql := "SELECT id, stock_quantity, price FROM products WHERE id IN (" + Placeholders(|ids.value|) + ")";
      PlaceholdersSplit(|ids.value|);
      PlaceholdersFree(|ids.value|, '(');
      InListOf("SELECT id, stock_quantity, price FROM products WHERE id IN (", Placeholders(|ids.value|));
      Ok(200, SqlQuery(sql, ids.value))
  }

  /** What a `... IN (<list>)` query holds between the parentheses that close it. */
  function InList(sql: string): string {
    if |sql| >= 1 && sql[|sql| - 1] == ')' then LastOpen(sql[..|sql| - 1], |sql| - 1) else ""
  }

  /** The text after the last `(` of `s[..n]`. */
  function LastOpen(s: string, n: nat): string
    requires n <= |s|
  {
    if n == 0 then s
    else if s[n - 1] == '(' then s[n..]
    else LastOpen(s, n - 1)
  }

  lemma {:induction false} LastOpenAfter(head: string, list: string, n: nat)
    requires |head| >= 1 && head[|head| - 1] == '(' && Free(list, '(')
    requires |head| <= n <= |head| + |list|
    ensures LastOpen(head + list, n) == list
  {
    var s := head + list;
    if n > |head| {
      assert s[n - 1] == list[n - 1 - |head|];
      LastOpenAfter(head, list, n - 1);
    } else {
      assert s[n..] == list;
    }
  }

  lemma InListOf(head: string, list: string)
    requires |head| >= 1 && head[|head| - 1] == '(' && Free(list, '(')
    ensures InList(head + list + ")") == list
  {
    var s := head + list + ")";
    assert s[..|s| - 1] == head + list;
    LastOpenAfter(head, list, |s| - 1);
  }

  // ---------------------------------------------------------------------------
  // The filtered listing

  /** The query string; every field may be absent. */
  datatype ProductQuery = ProductQuery(
    category: Option<string>,
    minPrice: Option<string>,
    maxPrice: Option<string>,
    q: Option<string>,
    limit: Option<string>,
    offset: Option<string>)

  /** A bound parameter: a text, or `Number(text)` of a query-string value. */
  datatype SqlParam = Text(text: string) | Numeric(source: string)

  /** A filter the query asks for. */
  datatype ProductFilter = Category(id: string) | MinPrice(min: string) | MaxPrice(max: string) | Search(term: string)

  function Rank(f: ProductFilter): nat {
    match f
    case Category(_) => 0
    case MinPrice(_) => 1
    case MaxPrice(_) => 2
    case Search(_) => 3
  }

  function Opt(present: bool, f: ProductFilter): seq<ProductFilter> {
    if present then [f] else []
  }

  /** The filters a query asks for, one per non-empty field, in a fixed order. */
  function Filters(query: ProductQuery): seq<ProductFilter> {
    Opt(Truthy(query.category), Category(OrElse(query.category, "")))
    + Opt(Truthy(query.minPrice), MinPrice(OrElse(query.minPrice, "")))
    + Opt(Truthy(query.maxPrice), MaxPrice(OrElse(query.maxPrice, "")))
    + Opt(Truthy(query.q), Search(OrElse(query.q, "")))
  }

  /** The WHERE clause of one filter whose value is bound to `$k`; a search names `$k` twice. */
  function ClauseFor(f: ProductFilter, k: nat): string {
    match f
    case Category(_) => "category_id = " + Dollar(k)
    case MinPrice(_) => "price >= " + Dollar(k)
    case MaxPrice(_) => "price <= " + Dollar(k)
    case Search(_) => "(name ILIKE " + Dollar(k) + " OR description ILIKE " + Dollar(k) + ")"
  }

  /** The value bound for one filter. */
  function ParamFor(f: ProductFilter): SqlParam {
    match f
    case Category(id) => Text(id)
    case MinPrice(min) => Numeric(min)
    case MaxPrice(max) => Numeric(max)
    case Search(term) => Text("%" + term + "%")
  }

  /** `is_active = true`, then the clause of the k-th filter bound to `$k`. */
  function Clauses(fs: seq<ProductFilter>): (r: seq<string>)
    ensures |r| == |fs| + 1 && r[0] == "is_active = true"
  {
    if fs == [] then ["is_active = true"]
    else Clauses(fs[..|fs| - 1]) + [ClauseFor(fs[|fs| - 1], |fs|)]
  }

  function FilterParams(fs: seq<ProductFilter>): (r: seq<SqlParam>)
    ensures |r| == |fs|
  {
    if fs == [] then [] else FilterParams(fs[..|fs| - 1]) + [ParamFor(fs[|fs| - 1])]
  }

  lemma ClausesAppend(fs: seq<ProductFilter>, f: ProductFilter)
    ensures Clauses(fs + [f]) == Clauses(fs) + [ClauseFor(f, |fs| + 1)]
  {
    var g := fs + [f];
    assert g[..|g| - 1] == fs && g[|g| - 1] == f;
  }

  lemma ParamsAppend(fs: seq<ProductFilter>, f: ProductFilter)
    ensures FilterParams(fs + [f]) == FilterParams(fs) + [ParamFor(f)]
  {
    var g := fs + [f];
    assert g[..|g| - 1] == fs && g[|g| - 1] == f;
  }

  /** Appending a filter appends its clause, bound to the next placeholder, and its value. */
  lemma AppendFilter(fs: seq<ProductFilter>, f: ProductFilter)
    ensures Clauses(fs + [f]) == Clauses(fs) + [ClauseFor(f, |fs| + 1)]
    ensures FilterParams(fs + [f]) == FilterParams(fs) + [ParamFor(f)]
    ensures fs + Opt(false, f) == fs
  {
    ClausesAppend(fs, f);
    ParamsAppend(fs, f);
    assert fs + [] == fs;
  }

  /** The limit and offset texts; an absent value takes the default, an empty one stays. */
  function LimitText(query: ProductQuery): string {
    if query.limit.None? then "100" else query.limit.value
  }

  function OffsetText(query: ProductQuery): string {
    if query.offset.None? then "0" else query.offset.value
  }

  const SelectHead := "SELECT id, name, slug, description, price::float, compare_at_price::float, image_url, stock_quantity FROM products WHERE "

  /** The listing query for the clauses, with LIMIT and OFFSET bound to the given placeholders. */
  function ListingSql(where: seq<string>, limitAt: nat, offsetAt: nat): string {
    SelectHead + Join(where, " AND ") + " ORDER BY created_at DESC LIMIT " + Dollar(limitAt) + " OFFSET " + Dollar(offsetAt)
  }

  /**
   * GET, first part: the WHERE clauses and their values, pushed one filter
   * at a time, with a running counter numbering the placeholders.
   */
  method BuildWhere(query: ProductQuery) returns (where: seq<string>, params: seq<SqlParam>, idx: nat)
    ensures where == Clauses(Filters(query))
    ensures params == FilterParams(Filters(query))
    ensures idx == |Filters(query)| + 1
  {
    where := ["is_active = true"];
    params := [];
    idx := 1;
    ghost var f := Category(OrElse(query.category, ""));
    if Truthy(query.category) {
      where := where + ["category_id = " + Dollar(idx)];
      idx := idx + 1;
      params := params + [Text(query.category.value)];
    }
    ghost var fs := Opt(Truthy(query.category), f);
    AppendFilter([], f);
    assert where == Clauses(fs) && params == FilterParams(fs) && idx == |fs| + 1;
    f := MinPrice(OrElse(query.minPrice, ""));
    AppendFilter(fs, f);
    if Truthy(query.minPrice) {
      where := where + ["price >= " + Dollar(idx)];
      idx := idx + 1;
      params := params + [Numeric(query.minPrice.value)];
    }
    fs := fs + Opt(Truthy(query.minPrice), f);
    assert where == Clauses(fs) && params == FilterParams(fs) && idx == |fs| + 1;
    f := MaxPrice(OrElse(query.maxPrice, ""));
    AppendFilter(fs, f);
    if Truthy(query.maxPrice) {
      where := where + ["price <= " + Dollar(idx)];
      idx := idx + 1;
      params := params + [Numeric(query.maxPrice.value)];
    }
    fs := fs + Opt(Truthy(query.maxPrice), f);
    assert where == Clauses(fs) && params == FilterParams(fs) && idx == |fs| + 1;
    f := Search(OrElse(query.q, ""));
    AppendFilter(fs, f);
    if Truthy(query.q) {
      where := where + ["(name ILIKE " + Dollar(idx) + " OR description ILIKE " + Dollar(idx) + ")"];
      params := params + [Text("%" + query.q.value + "%")];
      idx := idx + 1;
    }
    fs := fs + Opt(Truthy(query.q), f);
    assert fs == Filters(query);
  }

  /**
   * GET: the WHERE clauses, then LIMIT and OFFSET at the next two placeholder
   * numbers, bound to the limit and the offset.
   */
  method BuildListing(query: ProductQuery) returns (where: seq<string>, params: seq<SqlParam>, sql: string)
    ensures where == Clauses(Filters(query))
    ensures params == FilterParams(Filters(query)) + [Numeric(LimitText(query)), Numeric(OffsetText(query))]
    ensures sql == ListingSql(where, |Filters(query)| + 1, |Filters(query)| + 2)
  {
    var idx;
    where, params, idx := BuildWhere(query);
    var limitAt := idx;
    idx := idx + 1;
    var offsetAt := idx;
    idx := idx + 1;
    sql := ListingSql(where, limitAt, offsetAt);
    params := params + [Numeric(LimitText(query))];
    params := params + [Numeric(OffsetText(query))];
  }

  /** The query-string field behind each kind of filter, by rank. */
  function Field(query: ProductQuery, rank: nat): Option<string> {
    if rank == 0 then query.category
    else if rank == 1 then query.minPrice
    else if rank == 2 then query.maxPrice
    else query.q
  }

  /** A query asks for a kind of filter exactly when that kind's field is non-empty. */
  lemma FilterAsked(query: ProductQuery, rank: nat)
    requires rank < 4
    ensures (exists f :: f in Filters(query) && Rank(f) == rank) <==> Truthy(Field(query, rank))
  {
    var a := Opt(Truthy(query.category), Category(OrElse(query.category, "")));
    var b := Opt(Truthy(query.minPrice), MinPrice(OrElse(query.minPrice, "")));
    var c := Opt(Truthy(query.maxPrice), MaxPrice(OrElse(query.maxPrice, "")));
    var d := Opt(Truthy(query.q), Search(OrElse(query.q, "")));
    var fs := Filters(query);
    assert fs == a + b + c + d;
    var mine := if rank == 0 then a else if rank == 1 then b else if rank == 2 then c else d;
    assert forall f :: f in fs && Rank(f) == rank ==> f in mine;
    if Truthy(Field(query, rank)) {
      assert mine[0] in fs;
    }
  }

  /** The filters come in the order category, min price, max price, search, each at most once. */
  lemma FiltersInOrder(query: ProductQuery)
    ensures |Filters(query)| <= 4
    ensures forall i, j :: 0 <= i < j < |Filters(query)| ==> Rank(Filters(query)[i]) < Rank(Filters(query)[j])
  {
    var a := Opt(Truthy(query.category), Category(OrElse(query.category, "")));
    var b := Opt(Truthy(query.minPrice), MinPrice(OrElse(query.minPrice, "")));
    var c := Opt(Truthy(query.maxPrice), MaxPrice(OrElse(query.maxPrice, "")));
    var d := Opt(Truthy(query.q), Search(OrElse(query.q, "")));
    var ranks := seq(|Filters(query)|, i requires 0 <= i < |Filters(query)| => Rank(Filters(query)[i]));
    assert Filters(query) == a + b + c + d;
  }

  /** The k-th filter's clause is the k-th after `is_active = true`, and its value is the k-th parameter. */
  lemma {:induction false} ClauseBinding(fs: seq<ProductFilter>, k: nat)
    requires 1 <= k <= |fs|
    ensures Clauses(fs)[k] == ClauseFor(fs[k - 1], k)
    ensures FilterParams(fs)[k - 1] == ParamFor(fs[k - 1])
  {
    if k < |fs| {
      ClauseBinding(fs[..|fs| - 1], k);
    }
  }

  /** Every filter's clause names its own placeholder `$k`. */
  lemma ClauseNamesPlaceholder(f: ProductFilter, k: nat)
    ensures Contains(ClauseFor(f, k), Dollar(k))
  {
    var d := Dollar(k);
    assert d[0..|d|] == d;
    match f
    case Category(_) => ContainsTail("category_id = ", d, d);
    case MinPrice(_) => ContainsTail("price >= ", d, d);
    case MaxPrice(_) => ContainsTail("price <= ", d, d);
    case Search(_) =>
      var rest := " OR description ILIKE " + Dollar(k) + ")";
      assert ClauseFor(f, k) == "(name ILIKE " + (Dollar(k) + rest);
      ContainsHead(Dollar(k), rest);
      ContainsTail("(name ILIKE ", Dollar(k) + rest, Dollar(k));
  }

  /**
   * The placeholders of a listing are exactly `$1` to `$m` for m parameters:
   * `$k` for the k-th filter, whose value is the k-th parameter, then LIMIT
   * at `$m - 1` and OFFSET at `$m`, bound to the last two parameters.
   */
  lemma ListingPlaceholders(query: ProductQuery, k: nat)
    ensures var fs := Filters(query);
      var params := FilterParams(fs) + [Numeric(LimitText(query)), Numeric(OffsetText(query))];
      && |params| == |fs| + 2
      && params[|params| - 2] == Numeric(LimitText(query))
      && params[|params| - 1] == Numeric(OffsetText(query))
      && (1 <= k <= |fs| ==> Contains(Clauses(fs)[k], Dollar(k)) && params[k - 1] == ParamFor(fs[k - 1]))
  {
    var fs := Filters(query);
    if 1 <= k <= |fs| {
      ClauseBinding(fs, k);
      ClauseNamesPlaceholder(fs[k - 1], k);
    }
  }
}
