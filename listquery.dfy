/** The list endpoint's query builder: optional filters become `AND` clauses
    of a parameterised SQL string, numbered `$1`, `$2`, … in the order they
    are appended, with the filter values collected alongside in the same
    order and the page size and offset last. The create endpoint's status
    default sits here too. */
module ListQuery {
  import opened Text

  datatype Option<T> = None | Some(value: T)

  /** JavaScript truthiness of a query-string value: an absent value and the
      empty string are falsy. */
  predicate Truthy(v: Option<string>) {
    v.Some? && v.value != ""
  }

  /** The query-string values the handler destructures (all strings as
      Express parses them; `None` when a key is absent). */
  datatype ListRequest = ListRequest(
    category: Option<string>,
    status: Option<string>,
    startDate: Option<string>,
    endDate: Option<string>,
    limit: Option<string>,
    offset: Option<string>)

  /** The four filterable fields, in the order their clauses are appended. */
  datatype Field = Category | Status | StartDate | EndDate

  function Rank(f: Field): nat {
    match f
    case Category => 0
    case Status => 1
    case StartDate => 2
    case EndDate => 3
  }

  function Column(f: Field): string {
    match f
    case Category => "category"
    case Status => "status"
    case StartDate => "timestamp"
    case EndDate => "timestamp"
  }

  /** Equality for category and status; the dates bound the timestamp from
      below and from above, both inclusively. */
  function Operator(f: Field): string {
    match f
    case Category => "="
    case Status => "="
    case StartDate => ">="
    case EndDate => "<="
  }

  function FieldValue(req: ListRequest, f: Field): Option<string> {
    match f
    case Category => req.category
    case Status => req.status
    case StartDate => req.startDate
    case EndDate => req.endDate
  }

  /** A filter that made it into the query, with its value. */
  datatype Filter = Filter(field: Field, value: string)

  /** The filter of field `f`, if its value is truthy. */
  function FilterOf(req: ListRequest, f: Field): (r: seq<Filter>)
    ensures |r| <= 1
    ensures r != [] <==> Truthy(FieldValue(req, f))
    ensures r != [] ==> r[0] == Filter(f, FieldValue(req, f).value)
  {
    if Truthy(FieldValue(req, f)) then [Filter(f, FieldValue(req, f).value)] else []
  }

  /** The fields of `fs`, in order. */
  function Fields(fs: seq<Filter>): (r: seq<Field>)
    ensures |r| == |fs|
    ensures forall k :: 0 <= k < |fs| ==> r[k] == fs[k].field
  {
    if |fs| == 0 then [] else [fs[0].field] + Fields(fs[1..])
  }

  lemma FieldsAppend(xs: seq<Filter>, ys: seq<Filter>)
    ensures Fields(xs + ys) == Fields(xs) + Fields(ys)
  {
    var l, r := Fields(xs + ys), Fields(xs) + Fields(ys);
    forall k | 0 <= k < |l| ensures l[k] == r[k] {
      if k < |xs| { assert r[k] == Fields(xs)[k]; } else { assert r[k] == Fields(ys)[k - |xs|]; }
    }
  }

  /** The field whose clause comes `i`-th. */
  function FieldAt(i: nat): (f: Field)
    requires i < 4
    ensures Rank(f) == i
  {
    if i == 0 then Category else if i == 1 then Status else if i == 2 then StartDate else EndDate
  }

  /** The filters of the first `n` fields in clause order. */
  function FiltersUpTo(req: ListRequest, n: nat): (fs: seq<Filter>)
    requires n <= 4
    ensures |fs| <= n
  {
    if n == 0 then [] else FiltersUpTo(req, n - 1) + FilterOf(req, FieldAt(n - 1))
  }

  /** The filters the request supplies, in clause order. */
  function ActiveFilters(req: ListRequest): (fs: seq<Filter>)
    ensures |fs| <= 4
  {
    FiltersUpTo(req, 4)
  }

  lemma {:induction false} FiltersUpToSound(req: ListRequest, n: nat)
    requires n <= 4
    ensures forall k :: 0 <= k < |FiltersUpTo(req, n)| ==>
              && Rank(FiltersUpTo(req, n)[k].field) < n
              && Truthy(FieldValue(req, FiltersUpTo(req, n)[k].field))
              && FiltersUpTo(req, n)[k].value == FieldValue(req, FiltersUpTo(req, n)[k].field).value
  {
    if n > 0 {
      FiltersUpToSound(req, n - 1);
      var prev := FiltersUpTo(req, n - 1);
      var last := FilterOf(req, FieldAt(n - 1));
      var fs := FiltersUpTo(req, n);
      assert fs == prev + last;
      forall k | 0 <= k < |fs|
        ensures && Rank(fs[k].field) < n
                && Truthy(FieldValue(req, fs[k].field))
                && fs[k].value == FieldValue(req, fs[k].field).value
      {
        if k < |prev| { assert fs[k] == prev[k]; } else { assert fs[k] == last[0]; }
      }
    }
  }

  lemma {:induction false} FiltersUpToOrdered(req: ListRequest, n: nat)
    requires n <= 4
    ensures forall j, k :: 0 <= j < k < |FiltersUpTo(req, n)| ==>
              Rank(FiltersUpTo(req, n)[j].field) < Rank(FiltersUpTo(req, n)[k].field)
  {
    if n > 0 {
      FiltersUpToOrdered(req, n - 1);
      FiltersUpToSound(req, n - 1);
      var prev := FiltersUpTo(req, n - 1);
      var last := FilterOf(req, FieldAt(n - 1));
      var fs := FiltersUpTo(req, n);
      assert fs == prev + last;
      forall j, k | 0 <= j < k < |fs|
        ensures Rank(fs[j].field) < Rank(fs[k].field)
      {
        assert fs[j] == prev[j];
        if k < |prev| { assert fs[k] == prev[k]; } else { assert fs[k] == last[0]; }
      }
    }
  }

  lemma {:induction false} FiltersUpToComplete(req: ListRequest, n: nat, f: Field)
    requires Rank(f) < n <= 4
    ensures Truthy(FieldValue(req, f)) <==> f in Fields(FiltersUpTo(req, n))
  {
    var prev := FiltersUpTo(req, n - 1);
    var last := FilterOf(req, FieldAt(n - 1));
    assert FiltersUpTo(req, n) == prev + last;
    FieldsAppend(prev, last);
    assert f in Fields(FiltersUpTo(req, n)) <==> f in Fields(prev) || f in Fields(last);
    if Rank(f) == n - 1 {
      EarlierFieldsOnly(req, n - 1, f);
      LastFilterOf(req, f);
    } else {
      FiltersUpToComplete(req, n - 1, f);
      OtherFilterOf(req, n - 1, f);
    }
  }

  /** The filter of the field of rank `i` is not one of field `f`'s. */
  lemma OtherFilterOf(req: ListRequest, i: nat, f: Field)
    requires i < 4 && Rank(f) != i
    ensures f !in Fields(FilterOf(req, FieldAt(i)))
  {
    var last := FilterOf(req, FieldAt(i));
    if last != [] {
      assert Fields(last) == [FieldAt(i)];
    }
  }

  /** A field of rank `n` has no filter among the first `n` fields. */
  lemma EarlierFieldsOnly(req: ListRequest, n: nat, f: Field)
    requires Rank(f) == n < 4
    ensures f !in Fields(FiltersUpTo(req, n))
  {
    var prev := FiltersUpTo(req, n);
    FiltersUpToSound(req, n);
    forall k | 0 <= k < |prev| ensures Fields(prev)[k] != f {
      assert Rank(prev[k].field) < n;
    }
  }

  lemma LastFilterOf(req: ListRequest, f: Field)
    ensures f in Fields(FilterOf(req, FieldAt(Rank(f)))) <==> Truthy(FieldValue(req, f))
  {
    assert FieldAt(Rank(f)) == f;
  }

  /** Every active filter has a truthy value in the request and carries
      that value. */
  lemma ActiveFiltersSound(req: ListRequest)
    ensures forall k :: 0 <= k < |ActiveFilters(req)| ==>
              && Truthy(FieldValue(req, ActiveFilters(req)[k].field))
              && ActiveFilters(req)[k].value == FieldValue(req, ActiveFilters(req)[k].field).value
  {
    FiltersUpToSound(req, 4);
  }

  /** The filters come in the fixed field order, so no field occurs twice. */
  lemma ActiveFiltersOrdered(req: ListRequest)
    ensures forall j, k :: 0 <= j < k < |ActiveFilters(req)| ==>
              Rank(ActiveFilters(req)[j].field) < Rank(ActiveFilters(req)[k].field)
  {
    FiltersUpToOrdered(req, 4);
  }

  /** A field has a filter exactly when its value is truthy. */
  lemma ActiveFiltersComplete(req: ListRequest, f: Field)
    ensures Truthy(FieldValue(req, f)) <==> f in Fields(ActiveFilters(req))
  {
    FiltersUpToComplete(req, 4, f);
  }

  /** The placeholder `$n`. */
  function Placeholder(n: nat): string {
    "$" + NatToString(n)
  }

  /** The text of a clause up to its placeholder number. */
  function ClauseHead(f: Field): string {
    match f
    case Category => " AND category = $"
    case Status => " AND status = $"
    case StartDate => " AND timestamp >= $"
    case EndDate => " AND timestamp <= $"
  }

  /** The clause appended for filter field `f` as the `n`-th parameter. */
  function Clause(f: Field, n: nat): string {
    ClauseHead(f) + NatToString(n)
  }

  /** Each clause compares its field's column by its operator against the
      placeholder of its parameter number. */
  lemma ClauseSpells(f: Field, n: nat)
    ensures Clause(f, n) == " AND " + Column(f) + " " + Operator(f) + " " + Placeholder(n)
  {
    HeadSpells(f);
    assert " $" == " " + "$";
    Regroup3(" AND " + Column(f) + " " + Operator(f), " ", "$", NatToString(n));
  }

  /** The clause text up to the number, spelled out per field. */
  lemma HeadSpells(f: Field)
    ensures ClauseHead(f) == " AND " + Column(f) + " " + Operator(f) + " $"
  {
    match f
    case Category => assert " AND " + "category" + " " + "=" + " $" == " AND category = $";
    case Status => assert " AND " + "status" + " " + "=" + " $" == " AND status = $";
    case StartDate => assert " AND " + "timestamp" + " " + ">=" + " $" == " AND timestamp >= $";
    case EndDate => assert " AND " + "timestamp" + " " + "<=" + " $" == " AND timestamp <= $";
  }

  /** Generic regroupings of concatenations. Stated over variables, they
      spare the solver from regrouping the literal clause texts. */
  lemma Assoc(a: string, b: string, c: string)
    ensures a + (b + c) == (a + b) + c
  {
  }

  lemma Regroup3(x: string, a: string, b: string, c: string)
    ensures (x + (a + b)) + c == (x + a) + (b + c)
  {
  }

  /** The clauses of `fs`, numbered from `first` on. */
  function Clauses(fs: seq<Filter>, first: nat): string {
    Numbered(Clause, fs, first)
  }

  /** The texts `render` gives the fields of `fs`, numbered from `first`
      on, one after the other. Only `Clause` is ever passed; taking it as a
      parameter keeps the numbering lemmas from unfolding the clause text. */
  function Numbered(render: (Field, nat) -> string, fs: seq<Filter>, first: nat): string
    decreases |fs|
  {
    if |fs| == 0 then "" else render(fs[0].field, first) + Numbered(render, fs[1..], first + 1)
  }

  /** The values of `fs`, in order. */
  function Values(fs: seq<Filter>): (r: seq<string>)
    ensures |r| == |fs|
    ensures forall k :: 0 <= k < |fs| ==> r[k] == fs[k].value
  {
    if |fs| == 0 then [] else [fs[0].value] + Values(fs[1..])
  }

  const BaseQuery: string := "SELECT * FROM complaints WHERE 1=1"

  /** The ordering and paging suffix, with its two placeholders. */
  function PageClause(n: nat): string {
    " ORDER BY timestamp DESC LIMIT " + Placeholder(n) + " OFFSET " + Placeholder(n + 1)
  }

  /** The statement the list endpoint runs for `req`. */
  function ListStatement(req: ListRequest): string {
    BaseQuery + Clauses(ActiveFilters(req), 1) + PageClause(|ActiveFilters(req)| + 1)
  }

  /** The parameters bound to it: the filter values in clause order, then
      page size and offset, each defaulted only when absent. */
  function ListParams(req: ListRequest): seq<string> {
    Values(ActiveFilters(req)) + [OrDefault(req.limit, DefaultLimit), OrDefault(req.offset, DefaultOffset)]
  }

  const DefaultLimit: string := "100"
  const DefaultOffset: string := "0"

  /** A destructuring default: it applies to an absent value only. */
  function OrDefault(v: Option<string>, default: string): (r: string)
    ensures v.Some? ==> r == v.value
    ensures v.None? ==> r == default
  {
    if v.Some? then v.value else default
  }

  /** Appending a clause extends the numbered clauses by one more. */
  lemma ClausesSnoc(fs: seq<Filter>, f: Filter, first: nat)
    ensures Clauses(fs + [f], first) == Clauses(fs, first) + Clause(f.field, first + |fs|)
  {
    ClausesAppend(fs, [f], first);
    assert Numbered(Clause, [f], first + |fs|) == Clause(f.field, first + |fs|) + Numbered(Clause, [], first + |fs| + 1);
  }

  lemma ValuesSnoc(fs: seq<Filter>, f: Filter)
    ensures Values(fs + [f]) == Values(fs) + [f.value]
  {
  }

  /** The builder's state for the filters `fs` appended so far: their
      clauses and values, and the next parameter number one past their
      count. */
  ghost predicate Built(fs: seq<Filter>, query: string, params: seq<string>, paramIndex: nat) {
    && query == BaseQuery + Clauses(fs, 1)
    && params == Values(fs)
    && paramIndex == |fs| + 1
  }

  /** One filter block of the builder: appending a filter's clause under
      the next number and its value keeps the two in step. */
  lemma BlockStep(fs: seq<Filter>, x: Filter, head: string, query: string, params: seq<string>, paramIndex: nat)
    requires head == ClauseHead(x.field)
    requires Built(fs, query, params, paramIndex)
    ensures Built(fs + [x], query + (head + NatToString(paramIndex)), params + [x.value], paramIndex + 1)
  {
    ClausesSnoc(fs, x, 1);
    ValuesSnoc(fs, x);
    Regroup(query, BaseQuery, Clauses(fs, 1), Clause(x.field, paramIndex));
  }

  lemma Regroup(query: string, base: string, c: string, t: string)
    requires query == base + c
    ensures query + t == base + (c + t)
  {
  }

  /** The filters up to field `n` when its value is truthy: one more. */
  lemma TakeStep(req: ListRequest, n: nat)
    requires n < 4 && Truthy(FieldValue(req, FieldAt(n)))
    ensures FiltersUpTo(req, n + 1) == FiltersUpTo(req, n) + [Filter(FieldAt(n), FieldValue(req, FieldAt(n)).value)]
  {
  }

  /** The filters up to field `n` when its value is falsy: the same. */
  lemma SkipStep(req: ListRequest, n: nat)
    requires n < 4 && !Truthy(FieldValue(req, FieldAt(n)))
    ensures FiltersUpTo(req, n + 1) == FiltersUpTo(req, n)
  {
    assert FiltersUpTo(req, n) + [] == FiltersUpTo(req, n);
  }

  /** A filter block whose field is set: the clause under the next number
      and the value extend the builder's state to one more field. */
  lemma TakeBlock(req: ListRequest, n: nat, f: Field, value: string, head: string,
                  query: string, params: seq<string>, paramIndex: nat)
    requires n == Rank(f) && FieldValue(req, f) == Some(value) && value != ""
    requires head == ClauseHead(f)
    requires Built(FiltersUpTo(req, n), query, params, paramIndex)
    ensures Built(FiltersUpTo(req, n + 1), query + (head + NatToString(paramIndex)),
                  params + [value], paramIndex + 1)
  {
    assert FieldAt(n) == f;
    TakeStep(req, n);
    BlockStep(FiltersUpTo(req, n), Filter(f, value), head, query, params, paramIndex);
  }

  /** A filter block whose field is unset or empty leaves the builder's
      state as it is, now covering one more field. */
  lemma SkipBlock(req: ListRequest, n: nat, f: Field, query: string, params: seq<string>, paramIndex: nat)
    requires n == Rank(f) && !Truthy(FieldValue(req, f))
    requires Built(FiltersUpTo(req, n), query, params, paramIndex)
    ensures Built(FiltersUpTo(req, n + 1), query, params, paramIndex)
  {
    assert FieldAt(n) == f;
    SkipStep(req, n);
  }

  /** The paging template as the handler writes it is the paging suffix
      on the two numbers after the filters'. */
  lemma PageStep(req: ListRequest, query: string, params: seq<string>, paramIndex: nat, limit: string, offset: string)
    requires Built(FiltersUpTo(req, 4), query, params, paramIndex)
    requires limit == OrDefault(req.limit, DefaultLimit) && offset == OrDefault(req.offset, DefaultOffset)
    ensures query + (" ORDER BY timestamp DESC LIMIT $" + NatToString(paramIndex)
                     + " OFFSET $" + NatToString(paramIndex + 1)) == ListStatement(req)
    ensures params + [limit, offset] == ListParams(req)
  {
    var d1, d2 := NatToString(paramIndex), NatToString(paramIndex + 1);
    var lim, off := " ORDER BY timestamp DESC LIMIT ", " OFFSET ";
    assert lim + "$" == " ORDER BY timestamp DESC LIMIT $";
    assert off + "$" == " OFFSET $";
    Regroup4(lim, "$", d1, off, "$", d2);
  }

  /** Regrouping `a + b + c + d + e + f` as the handler's template and as
      the two placeholders. */
  lemma Regroup4(a: string, b: string, c: string, d: string, e: string, f: string)
    ensures (a + b) + c + ((d + e) + f) == a + (b + c) + d + (e + f)
  {
  }

  /** `GET /api/complaints` building its statement: the base query, one
      clause per supplied filter in the fixed field order with placeholders
      numbered from 1, then ordering and paging on the next two numbers; the
      parameters are the filter values in clause order, then limit and
      offset. */
  method BuildListQuery(req: ListRequest) returns (query: string, params: seq<string>)
    ensures query == ListStatement(req)
    ensures params == ListParams(req)
  {
    var limit := OrDefault(req.limit, DefaultLimit);
    var offset := OrDefault(req.offset, DefaultOffset);
    query := BaseQuery;
    params := [];
    var paramIndex: nat := 1;
    ghost var n: nat := 0;
    assert Built(FiltersUpTo(req, n), query, params, paramIndex);

    if Truthy(req.category) {
      TakeBlock(req, n, Category, req.category.value, " AND category = $", query, params, paramIndex);
      query := query + (" AND category = $" + NatToString(paramIndex));
      params := params + [req.category.value];
      paramIndex := paramIndex + 1;
    } else {
      SkipBlock(req, n, Category, query, params, paramIndex);
    }
    n := n + 1;

    if Truthy(req.status) {
      TakeBlock(req, n, Status, req.status.value, " AND status = $", query, params, paramIndex);
      query := query + (" AND status = $" + NatToString(paramIndex));
      params := params + [req.status.value];
      paramIndex := paramIndex + 1;
    } else {
      SkipBlock(req, n, Status, query, params, paramIndex);
    }
    n := n + 1;

    if Truthy(req.startDate) {
      TakeBlock(req, n, StartDate, req.startDate.value, " AND timestamp >= $", query, params, paramIndex);
      query := query + (" AND timestamp >= $" + NatToString(paramIndex));
      params := params + [req.startDate.value];
      paramIndex := paramIndex + 1;
    } else {
      SkipBlock(req, n, StartDate, query, params, paramIndex);
    }
    n := n + 1;

    if Truthy(req.endDate) {
      TakeBlock(req, n, EndDate, req.endDate.value, " AND timestamp <= $", query, params, paramIndex);
      query := query + (" AND timestamp <= $" + NatToString(paramIndex));
      params := params + [req.endDate.value];
      paramIndex := paramIndex + 1;
    } else {
      SkipBlock(req, n, EndDate, query, params, paramIndex);
    }
    n := n + 1;

    assert n == 4;
    PageStep(req, query, params, paramIndex, limit, offset);
    query := query + (" ORDER BY timestamp DESC LIMIT $" + NatToString(paramIndex)
                      + " OFFSET $" + NatToString(paramIndex + 1));
    params := params + [limit, offset];
  }

  /** The clauses of a concatenation are the clauses of each part, the
      second numbered on from where the first stops. */
  lemma ClausesAppend(xs: seq<Filter>, ys: seq<Filter>, first: nat)
    ensures Clauses(xs + ys, first) == Clauses(xs, first) + Clauses(ys, first + |xs|)
  {
    NumberedAppend(Clause, xs, ys, first);
  }

  lemma {:induction false} NumberedAppend(render: (Field, nat) -> string, xs: seq<Filter>, ys: seq<Filter>, first: nat)
    ensures Numbered(render, xs + ys, first) == Numbered(render, xs, first) + Numbered(render, ys, first + |xs|)
    decreases |xs|
  {
    if |xs| == 0 {
      assert xs + ys == ys;
    } else {
      var c := render(xs[0].field, first);
      var t := xs[1..];
      assert (xs + ys)[0] == xs[0];
      assert (xs + ys)[1..] == t + ys;
      NumberedAppend(render, t, ys, first + 1);
      assert first + 1 + |t| == first + |xs|;
      Assoc(c, Numbered(render, t, first + 1), Numbered(render, ys, first + |xs|));
    }
  }

  /** The numbered clauses split around the one at index `k`: it is
      numbered `first + k`. */
  lemma ClauseAt(fs: seq<Filter>, first: nat, k: nat)
    requires k < |fs|
    ensures Clauses(fs, first)
            == Clauses(fs[..k], first) + (Clause(fs[k].field, first + k) + Clauses(fs[k + 1..], first + k + 1))
  {
    var rest := fs[k..];
    assert fs == fs[..k] + rest;
    ClausesAppend(fs[..k], rest, first);
    assert rest[0] == fs[k] && rest[1..] == fs[k + 1..];
  }

  /** The `k`-th clause of the statement (counting from 1) compares its
      field against placeholder `$k`, and `params[k-1]` holds that field's
      value from the request, which is truthy. */
  lemma KthClauseMatchesParam(req: ListRequest, k: nat)
    requires 1 <= k <= |ActiveFilters(req)|
    ensures Clauses(ActiveFilters(req), 1)
            == Clauses(ActiveFilters(req)[..k - 1], 1)
               + (Clause(ActiveFilters(req)[k - 1].field, k) + Clauses(ActiveFilters(req)[k..], k + 1))
    ensures Truthy(FieldValue(req, ActiveFilters(req)[k - 1].field))
    ensures ListParams(req)[k - 1] == FieldValue(req, ActiveFilters(req)[k - 1].field).value
  {
    ClauseAt(ActiveFilters(req), 1, k - 1);
    ActiveFiltersSound(req);
  }

  /** There are two parameters more than there are filters; the paging
      placeholders are the last two numbers, so the highest placeholder
      is the parameter count, and those two parameters are the page size
      and the offset. */
  lemma PagingUsesLastParams(req: ListRequest)
    ensures |ListParams(req)| == |ActiveFilters(req)| + 2
    ensures ListStatement(req)
            == BaseQuery + Clauses(ActiveFilters(req), 1)
               + (" ORDER BY timestamp DESC LIMIT " + Placeholder(|ListParams(req)| - 1)
                  + " OFFSET " + Placeholder(|ListParams(req)|))
    ensures ListParams(req)[|ListParams(req)| - 2] == OrDefault(req.limit, DefaultLimit)
    ensures ListParams(req)[|ListParams(req)| - 1] == OrDefault(req.offset, DefaultOffset)
  {
  }

  /** Distinct parameter numbers give distinct placeholders. */
  lemma PlaceholdersDistinct(m: nat, n: nat)
    requires m != n
    ensures Placeholder(m) != Placeholder(n)
  {
    ParseNatToString(m);
    ParseNatToString(n);
    assert Placeholder(m)[1..] == NatToString(m);
    assert Placeholder(n)[1..] == NatToString(n);
  }

  /** The status a new complaint is given when the request names none. */
  const DefaultStatus: string := "접수완료"

  /** The status `POST /api/complaints` stores: the requested one when it
      is truthy, the default otherwise. */
  function StoredStatus(status: Option<string>): (r: string)
    ensures Truthy(status) ==> r == status.value
    ensures !Truthy(status) ==> r == DefaultStatus
  {
    if Truthy(status) then status.value else DefaultStatus
  }

  /** A stored status is never empty, and storing it again keeps it. */
  lemma StoredStatusStable(status: Option<string>)
    ensures StoredStatus(status) != ""
    ensures StoredStatus(Some(StoredStatus(status))) == StoredStatus(status)
  {
    assert DefaultStatus != "" by { assert |DefaultStatus| == 4; }
  }
}
