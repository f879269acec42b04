/**
 * The setters of `BChart` that validate their argument (`setType`, `setTotal`,
 * `setFieldGroup`), the required-parameter checks at the top of `loadData`, and
 * `setSize` with the unit removal `makeOptions` applies to the height
 * (app/lib/widget/builder/charts/BChart.php).
 */
module ChartConfig {
  import opened Results
  import opened Strings

  datatype ChartType = Pie | Line | Bar | Donut

  /** The name of a chart type, as `setType` receives it and the renderer's `data.type` uses it. */
  function TypeName(t: ChartType): string {
    match t
    case Pie => "pie"
    case Line => "line"
    case Bar => "bar"
    case Donut => "donut"
  }

  /** `setType`: only the four chart kinds are accepted; anything else is reported by value. */
  function SetType(name: string): (r: Result<ChartType, ConfigError>)
    ensures r.Ok? <==> name in {"pie", "line", "bar", "donut"}
    ensures r.Ok? ==> TypeName(r.value) == name
    ensures r.Err? ==> r.error == InvalidParameter(name)
  {
    if name == "pie" then Ok(Pie)
    else if name == "line" then Ok(Line)
    else if name == "bar" then Ok(Bar)
    else if name == "donut" then Ok(Donut)
    else Err(InvalidParameter(name))
  }

  lemma SetTypeRoundTrip(t: ChartType)
    ensures SetType(TypeName(t)) == Ok(t)
  {
  }

  datatype Aggregate = Sum | Max | Min | Count | Avg

  /** The SQL aggregate function of a total. */
  function AggregateName(a: Aggregate): string {
    match a
    case Sum => "sum"
    case Max => "max"
    case Min => "min"
    case Count => "count"
    case Avg => "avg"
  }

  /** `setTotal`: only the five SQL aggregates are accepted; anything else is reported by value. */
  function SetTotal(name: string): (r: Result<Aggregate, ConfigError>)
    ensures r.Ok? <==> name in {"sum", "max", "min", "count", "avg"}
    ensures r.Ok? ==> AggregateName(r.value) == name
    ensures r.Err? ==> r.error == InvalidParameter(name)
  {
    if name == "sum" then Ok(Sum)
    else if name == "max" then Ok(Max)
    else if name == "min" then Ok(Min)
    else if name == "count" then Ok(Count)
    else if name == "avg" then Ok(Avg)
    else Err(InvalidParameter(name))
  }

  lemma SetTotalRoundTrip(a: Aggregate)
    ensures SetTotal(AggregateName(a)) == Ok(a)
  {
  }

  /** `setFieldGroup`: at most two group fields. An empty list passes here and fails in `loadData`. */
  function SetFieldGroup(fields: seq<string>): (r: Result<seq<string>, ConfigError>)
    ensures r.Ok? <==> |fields| <= 2
    ensures r.Ok? ==> r.value == fields
    ensures r.Err? ==> r.error == InvalidParameter("fieldGroup")
  {
    if |fields| > 2 then Err(InvalidParameter("fieldGroup")) else Ok(fields)
  }

  /** The parameters `loadData` insists on, before it touches any connection. */
  datatype Source = Source(database: string, model: string, fieldGroup: seq<string>, fieldValue: string)

  /** The checks of `loadData`, in order: the first empty parameter is the one reported. */
  function CheckRequired(src: Source): (r: Result<Source, ConfigError>)
    ensures r.Ok? <==> Truthy(src.database) && Truthy(src.model) && |src.fieldGroup| > 0 && Truthy(src.fieldValue)
    ensures r.Ok? ==> r.value == src
    ensures Empty(src.database) ==> r == Err(MissingParameter("database"))
    ensures Truthy(src.database) && Empty(src.model) ==> r == Err(MissingParameter("model"))
    ensures Truthy(src.database) && Truthy(src.model) && |src.fieldGroup| == 0 ==>
              r == Err(MissingParameter("fieldGroup"))
    ensures Truthy(src.database) && Truthy(src.model) && |src.fieldGroup| > 0 && Empty(src.fieldValue) ==>
              r == Err(MissingParameter("fieldValue"))
  {
    if Empty(src.database) then Err(MissingParameter("database"))
    else if Empty(src.model) then Err(MissingParameter("model"))
    else if |src.fieldGroup| == 0 then Err(MissingParameter("fieldGroup"))
    else if Empty(src.fieldValue) then Err(MissingParameter("fieldValue"))
    else Ok(src)
  }

  /**
   * Between them, `setFieldGroup` and the check in `loadData` let through exactly the
   * field groups of one or two fields, the widths the query and the pivot handle.
   */
  lemma FieldGroupWidths(src: Source)
    ensures SetFieldGroup(src.fieldGroup).Ok? && CheckRequired(src).Ok? <==>
              1 <= |src.fieldGroup| <= 2 && Truthy(src.database) && Truthy(src.model) && Truthy(src.fieldValue)
  {
  }

  /** Every error `CheckRequired` reports names one of the four parameters. */
  lemma CheckRequiredNames(src: Source)
    requires CheckRequired(src).Err?
    ensures CheckRequired(src).error.MissingParameter?
    ensures CheckRequired(src).error.name in {"database", "model", "fieldGroup", "fieldValue"}
  {
  }

  /** One dimension of `setSize`: a value with '%' is kept, anything else gets the unit "px". */
  function Dimension(v: string): (d: string)
    ensures '%' in v ==> d == v
    ensures '%' !in v ==> |d| == |v| + 2 && d[..|v|] == v && d[|v|..] == "px"
  {
    if '%' in v then v else v + "px"
  }

  datatype Size = Size(width: string, height: string)

  function SetSize(width: string, height: string): (s: Size)
    ensures s.width == Dimension(width) && s.height == Dimension(height)
  {
    Size(Dimension(width), Dimension(height))
  }

  /** The default size, `setSize('100%', 300)`. */
  function DefaultSize(): Size {
    SetSize("100%", IntToString(300))
  }

  lemma DigitsHaveNoUnit(s: string)
    requires forall i :: 0 <= i < |s| ==> IsDigit(s[i]) || s[i] == '-'
    ensures !HasPx(s) && '%' !in s
  {
  }

  /**
   * A height given as a number gets "px" from `setSize`, and `makeOptions` removes it
   * again: `size.height` is the number's text.
   */
  lemma NumericHeightRoundTrip(h: int)
    ensures Dimension(IntToString(h)) == IntToString(h) + "px"
    ensures StripPx(Dimension(IntToString(h))) == IntToString(h)
  {
    var t := IntToString(h);
    assert forall i :: 0 <= i < |t| ==> IsDigit(t[i]) || t[i] == '-' by {
      if h >= 0 {
        assert t == NatToString(h);
      } else {
        assert t == "-" + NatToString(-h);
        assert forall i :: 1 <= i < |t| ==> t[i] == NatToString(-h)[i - 1];
      }
    }
    DigitsHaveNoUnit(t);
    StripPxOfSuffixed(t);
  }

  /** A percentage height without "px" in it reaches `size.height` unchanged. */
  lemma PercentHeightKept(h: string)
    requires '%' in h && !HasPx(h)
    ensures StripPx(Dimension(h)) == h
  {
  }

  /** The default size is 100% wide and 300px high. */
  lemma DefaultSizeValue()
    ensures DefaultSize() == Size("100%", "300px")
  {
    assert IntToString(300) == "300";
  }
}
