/**
 * The clause assembly of `loadData` (app/lib/widget/builder/charts/BChart.php): the
 * entity list, the join filters, the selected columns, the GROUP BY and ORDER BY lists.
 * Executing the statement and the driver lookup are outside the model: whether the
 * driver is one of mssql, dblib or sqlsrv is an input.
 */
module ChartQuery {
  import opened Results
  import opened Strings
  import opened Seqs
  import opened ChartConfig

  /** True when a field name is already qualified or an expression: it has '.', ':' or '('. */
  predicate IsQualified(name: string) {
    '.' in name || ':' in name || '(' in name
  }

  /** A bare field gets the entity in front of it; anything else is kept. */
  function Qualify(entity: string, name: string): (q: string)
    ensures IsQualified(name) ==> q == name
    ensures !IsQualified(name) ==> q == entity + "." + name
    ensures IsQualified(q)
  {
    if IsQualified(name) then name
    else
      var q := entity + "." + name;
      assert q[|entity|] == '.';
      q
  }

  /** Qualifying twice is qualifying once: `loadData` can run again on the stored field value. */
  lemma QualifyIdempotent(entity: string, name: string)
    ensures Qualify(entity, Qualify(entity, name)) == Qualify(entity, name)
  {
  }

  /** A join side is qualified when it has no '.'; ':' and '(' do not count there. */
  function QualifyJoinSide(entity: string, name: string): (q: string)
    ensures '.' in name ==> q == name
    ensures '.' !in name ==> q == entity + "." + name
    ensures '.' in q
  {
    if '.' in name then name
    else
      var q := entity + "." + name;
      assert q[|entity|] == '.';
      q
  }

  /** A join condition `[key, value]` or `[key, operator, value]`. */
  datatype JoinCond = JoinCond(key: string, op: Option<string>, value: string)

  /** The filter a join adds to the criteria; the value is passed unescaped. */
  datatype Filter = Filter(left: string, op: string, right: string)

  function JoinFilter(entity: string, j: JoinCond): (f: Filter)
    ensures f.op == j.op.GetOr("=")
    ensures f.left == QualifyJoinSide(entity, j.key)
    ensures f.right == "NOESC: " + QualifyJoinSide(entity, j.value)
  {
    Filter(QualifyJoinSide(entity, j.key), j.op.GetOr("="), "NOESC: " + QualifyJoinSide(entity, j.value))
  }

  /** The filters of all joins, in order. */
  function JoinFilters(entity: string, joins: seq<(string, JoinCond)>): (fs: seq<Filter>)
    ensures |fs| == |joins|
    ensures forall i :: 0 <= i < |joins| ==> fs[i] == JoinFilter(entity, joins[i].1)
  {
    seq(|joins|, i requires 0 <= i < |joins| => JoinFilter(entity, joins[i].1))
  }

  /** The joined tables, then the model's entity unless a join already names it. */
  function Entities(entity: string, tables: seq<string>): (es: seq<string>)
    ensures entity in es
    ensures |es| >= |tables| && es[..|tables|] == tables
    ensures entity in tables ==> es == tables
    ensures entity !in tables ==> es == tables + [entity]
  {
    if entity in tables then tables else tables + [entity]
  }

  /** The entity list appears once in FROM: a join that names the entity does not repeat it. */
  lemma EntitiesNoRepeat(entity: string, tables: seq<string>)
    requires NoDup(tables)
    ensures NoDup(Entities(entity, tables))
  {
  }

  /** The selected column and the GROUP BY term of the group field at position `key`. */
  function GroupTerms(entity: string, field: string, key: nat): (t: (string, string))
    ensures !IsQualified(field) ==> t == (entity + "." + field + " as " + field, entity + "." + field)
    ensures IsQualified(field) ==> t == (field + " as fieldGroup" + NatToString(key), field)
  {
    if !IsQualified(field) then (entity + "." + field + " as " + field, entity + "." + field)
    else (field + " as fieldGroup" + NatToString(key), field)
  }

  /** The query settings `loadData` reads. */
  datatype QuerySpec = QuerySpec(
    entity: string, tables: seq<(string, JoinCond)>, fieldColor: string, fieldGroup: seq<string>,
    fieldValue: string, total: Aggregate, orderByValue: string, isMssql: bool)

  datatype Query = Query(
    columns: seq<string>, entities: string, filters: seq<Filter>,
    group: string, order: string, value: string)

  function Tables(joins: seq<(string, JoinCond)>): (ts: seq<string>)
    ensures |ts| == |joins| && forall i :: 0 <= i < |joins| ==> ts[i] == joins[i].0
  {
    seq(|joins|, i requires 0 <= i < |joins| => joins[i].0)
  }

  /** The GROUP BY terms: the colour alias first when there is a colour field, then the groups. */
  function Groups(q: QuerySpec): (gs: seq<string>)
    ensures |gs| == |q.fieldGroup| + (if Truthy(q.fieldColor) then 1 else 0)
    ensures Truthy(q.fieldColor) ==> gs[0] == "color"
    ensures var off := if Truthy(q.fieldColor) then 1 else 0;
      forall k :: 0 <= k < |q.fieldGroup| ==> gs[off + k] == GroupTerms(q.entity, q.fieldGroup[k], k).1
  {
    (if Truthy(q.fieldColor) then ["color"] else []) +
    seq(|q.fieldGroup|, k requires 0 <= k < |q.fieldGroup| => GroupTerms(q.entity, q.fieldGroup[k], k).1)
  }

  /** The ORDER BY term on the total: the alias, or the aggregate itself on SQL Server drivers. */
  function TotalOrder(q: QuerySpec): string {
    var head := if q.isMssql then AggregateName(q.total) + "(" + Qualify(q.entity, q.fieldValue) + ") " else "total ";
    head + q.orderByValue
  }

  /**
   * The ORDER BY terms as the source computes them: the groups, with the total term in
   * front when ordering by value, and then the first term removed when there is a colour
   * field (`unset($orders[0])`).
   */
  function Orders(q: QuerySpec): (os: seq<string>) {
    var orders := (if Truthy(q.orderByValue) then [TotalOrder(q)] else []) + Groups(q);
    if Truthy(q.fieldColor) && |orders| > 0 then orders[1..] else orders
  }

  /** Without a colour field the order is the total term (if any) and then every group term. */
  lemma OrdersWithoutColor(q: QuerySpec)
    requires Empty(q.fieldColor)
    ensures Orders(q) == (if Truthy(q.orderByValue) then [TotalOrder(q)] else []) + Groups(q)
  {
  }

  /** With a colour field and no ordering by value, the removed term is the colour alias. */
  lemma OrdersDropColor(q: QuerySpec)
    requires Truthy(q.fieldColor) && Empty(q.orderByValue)
    ensures Orders(q) == Groups(q)[1..]
    ensures |Orders(q)| == |q.fieldGroup|
  {
  }

  /**
   * With both a colour field and ordering by value, the removed term is the total term:
   * the result is ordered by the colour and the groups, not by the total.
   */
  lemma OrdersDropTotal(q: QuerySpec)
    requires Truthy(q.fieldColor) && Truthy(q.orderByValue)
    ensures Orders(q) == Groups(q)
    ensures |Orders(q)| > 0 && Orders(q)[0] == "color"
  {
  }

  /** The selected columns: the colour, each group with its alias, the aggregated total. */
  function Columns(q: QuerySpec): (cs: seq<string>)
    ensures |cs| == |q.fieldGroup| + 1 + (if Truthy(q.fieldColor) then 1 else 0)
    ensures Truthy(q.fieldColor) ==> cs[0] == q.fieldColor + " as color"
    ensures cs[|cs| - 1] == AggregateName(q.total) + "(" + Qualify(q.entity, q.fieldValue) + ") as total"
    ensures var off := if Truthy(q.fieldColor) then 1 else 0;
      forall k :: 0 <= k < |q.fieldGroup| ==> cs[off + k] == GroupTerms(q.entity, q.fieldGroup[k], k).0
  {
    (if Truthy(q.fieldColor) then [q.fieldColor + " as color"] else []) +
    seq(|q.fieldGroup|, k requires 0 <= k < |q.fieldGroup| => GroupTerms(q.entity, q.fieldGroup[k], k).0) +
    [AggregateName(q.total) + "(" + Qualify(q.entity, q.fieldValue) + ") as total"]
  }

  /** The query of `loadData` once the required parameters are present. */
  function BuildQuery(q: QuerySpec): (r: Query)
    ensures r.columns == Columns(q)
    ensures r.entities == Implode(Entities(q.entity, Tables(q.tables)), ", ")
    ensures r.filters == JoinFilters(q.entity, q.tables)
    ensures r.group == Implode(Groups(q), ", ")
    ensures r.order == Implode(Orders(q), ", ")
    ensures r.value == Qualify(q.entity, q.fieldValue)
  {
    Query(Columns(q), Implode(Entities(q.entity, Tables(q.tables)), ", "), JoinFilters(q.entity, q.tables),
          Implode(Groups(q), ", "), Implode(Orders(q), ", "), Qualify(q.entity, q.fieldValue))
  }

  /**
   * `loadData` as far as the statement: the required-parameter checks come first, and a
   * missing parameter stops it before any query is built.
   */
  function LoadQuery(src: Source, q: QuerySpec): (r: Result<Query, ConfigError>)
    requires src.fieldGroup == q.fieldGroup && src.fieldValue == q.fieldValue
    ensures r.Ok? <==> CheckRequired(src).Ok?
    ensures r.Err? ==> r.error == CheckRequired(src).error
    ensures r.Ok? ==> r.value == BuildQuery(q)
  {
    var _ :- CheckRequired(src);
    Ok(BuildQuery(q))
  }
}
