/**
 * The function-plot block: how the JSON a reply wrote is normalised into a plot configuration,
 * and how each plotted item gets its defaults (function type, graph type, colour, label, range)
 * before it is drawn. Parsing the JSON is not modelled: the parsed value is the input, with the
 * fields the component reads.
 */
module MathGraph {
  import opened Wrappers
  import opened JsText

  /** The seven legend colours, used in turn for items without a colour of their own. */
  const LEGEND_COLORS: seq<string> := ["#2563eb", "#dc2626", "#16a34a", "#9333ea", "#ea580c", "#0891b2", "#db2777"]

  const PARSE_ERROR: string := "Failed to parse diagram"
  /** The message of the TypeError that reading `parsed.data` throws when the JSON is `null` (V8's wording). */
  const NULL_DATA_ERROR: string := "Cannot read properties of null (reading 'data')"

  /** An axis domain `[min, max]`. */
  datatype Domain = Domain(min: real, max: real)

  const DEFAULT_DOMAIN: Domain := Domain(-10.0, 10.0)

  /**
   * The `range` field of an item: absent, present but not an array, or an array whose entries
   * are given as what `Number(entry)` yields (None for NaN).
   */
  datatype RangeField = NoRange | NotAnArray | RangeArray(entries: seq<Option<real>>)

  /** A plotted item as it comes from the JSON, every field optional (`labelText` is `label`). */
  datatype FunctionItem = FunctionItem(
    fn: Option<string>,
    fnType: Option<string>,
    color: Option<string>,
    graphType: Option<string>,
    points: Option<seq<seq<real>>>,
    vector: Option<(real, real)>,
    range: RangeField,
    closed: Option<bool>,
    nSamples: Option<int>,
    labelText: Option<string>)

  datatype Axis = Axis(domain: Option<Domain>, labelText: Option<string>)

  datatype PlotConfig = PlotConfig(
    data: seq<FunctionItem>,
    title: Option<string>,
    xAxis: Option<Axis>,
    yAxis: Option<Axis>,
    grid: Option<bool>,
    disableZoom: Option<bool>)

  /**
   * The parsed JSON: `data` is None when it is not an array; `fn`, `range` and `domain` are the
   * shorthand fields of a single-function block.
   */
  /**
   * What `JSON.parse` returns: `null`, or any other value, seen through the fields the plot
   * reads (a number, string or array has none of them, so all are absent).
   */
  datatype ParsedJson = JsonNull | JsonValue(plot: ParsedPlot)

  datatype ParsedPlot = ParsedPlot(
    data: Option<seq<FunctionItem>>,
    fn: Option<string>,
    range: RangeField,
    domain: Option<Domain>,
    title: Option<string>,
    xAxis: Option<Axis>,
    yAxis: Option<Axis>,
    grid: Option<bool>,
    disableZoom: Option<bool>)

  /** An item with its defaults filled in, as it is handed to the plotting library. */
  datatype PlotItem = PlotItem(
    fn: Option<string>,
    fnType: string,
    color: string,
    graphType: string,
    points: Option<seq<seq<real>>>,
    vector: Option<(real, real)>,
    range: Option<(real, real)>,
    closed: Option<bool>,
    nSamples: Option<int>,
    labelText: string)

  /** What is drawn; the y domain is the configured one, before the aspect-ratio adjustment. */
  datatype Plot = Plot(
    title: Option<string>,
    grid: bool,
    disableZoom: Option<bool>,
    xDomain: Domain,
    yDomain: Domain,
    xLabel: string,
    yLabel: string,
    data: seq<PlotItem>)

  datatype Outcome = Failed(message: string) | Drawn(plot: Plot)

  /**
   * The normalisation: a `data` array is taken as the configuration itself; anything else is the
   * shorthand for one function, defaulting to `x`, in the first legend colour, as a polyline,
   * over the given domain or [-10, 10], with the grid on.
   */
  function Normalize(parsed: ParsedPlot): (config: PlotConfig)
    ensures parsed.data.Some? ==> config == PlotConfig(parsed.data.value, parsed.title, parsed.xAxis,
      parsed.yAxis, parsed.grid, parsed.disableZoom)
    ensures parsed.data.None? ==>
      && |config.data| == 1
      && config.data[0].fn == Some(Or(parsed.fn, "x"))
      && config.data[0].color == Some(LEGEND_COLORS[0])
      && config.data[0].graphType == Some("polyline")
      && config.data[0].labelText == parsed.fn
      && config.data[0].range == parsed.range
      && config.xAxis == Some(Axis(Some(parsed.domain.Coalesce(DEFAULT_DOMAIN)), None))
      && config.yAxis == Some(Axis(Some(DEFAULT_DOMAIN), None))
      && config.grid == Some(true)
      && config.title.None? && config.disableZoom.None?
  {
    match parsed.data
    case Some(data) => PlotConfig(data, parsed.title, parsed.xAxis, parsed.yAxis, parsed.grid, parsed.disableZoom)
    case None =>
      var item := FunctionItem(Some(Or(parsed.fn, "x")), None, Some(LEGEND_COLORS[0]), Some("polyline"),
        None, None, parsed.range, None, None, parsed.fn);
      PlotConfig([item], None, Some(Axis(Some(parsed.domain.Coalesce(DEFAULT_DOMAIN)), None)),
        Some(Axis(Some(DEFAULT_DOMAIN), None)), Some(true), None)
  }

  /** `item.fnType || "linear"`. */
  function FnType(item: FunctionItem): string {
    Or(item.fnType, "linear")
  }

  /** The graph type: the item's own when it has one, else by function type. */
  function GraphType(item: FunctionItem): (g: string)
    ensures Truthy(item.graphType) ==> g == item.graphType.value
    ensures !Truthy(item.graphType) ==>
      g == (if FnType(item) == "implicit" then "interval" else if FnType(item) == "points" then "scatter" else "polyline")
  {
    if Truthy(item.graphType) then item.graphType.value
    else if FnType(item) == "implicit" then "interval"
    else if FnType(item) == "points" then "scatter"
    else "polyline"
  }

  /** The accepted range: only for explicit functions, from an array of two or more numbers. */
  function FinalRange(item: FunctionItem): (r: Option<(real, real)>)
    ensures r.Some? <==>
      && FnType(item) != "implicit"
      && item.range.RangeArray?
      && |item.range.entries| >= 2
      && item.range.entries[0].Some? && item.range.entries[1].Some?
    ensures r.Some? ==> r.value == (item.range.entries[0].value, item.range.entries[1].value)
  {
    if FnType(item) != "implicit" && item.range.RangeArray? && |item.range.entries| >= 2 then
      var min := item.range.entries[0];
      var max := item.range.entries[1];
      if min.Some? && max.Some? then Some((min.value, max.value)) else None
    else None
  }

  /** `item.label || item.fn || "Function <index + 1>"`. */
  function Label(item: FunctionItem, index: nat): (text: string)
    ensures text != []
    ensures Truthy(item.labelText) ==> text == item.labelText.value
    ensures !Truthy(item.labelText) && Truthy(item.fn) ==> text == item.fn.value
    ensures !Truthy(item.labelText) && !Truthy(item.fn) ==> text == "Function " + DecimalString(index + 1)
  {
    Or(item.labelText, Or(item.fn, "Function " + DecimalString(index + 1)))
  }

  /** An item with its defaults, at position `index` of the list. */
  function ProcessItem(item: FunctionItem, index: nat): PlotItem {
    PlotItem(item.fn, FnType(item), Or(item.color, LEGEND_COLORS[index % |LEGEND_COLORS|]), GraphType(item),
      item.points, item.vector, FinalRange(item), item.closed, item.nSamples, Label(item, index))
  }

  /** `config.data.map(...)`: one plotted item per configured item, in the same order. */
  function ProcessData(data: seq<FunctionItem>): (r: seq<PlotItem>)
    ensures |r| == |data|
    ensures forall i :: 0 <= i < |data| ==> r[i] == ProcessItem(data[i], i)
  {
    seq(|data|, i requires 0 <= i < |data| => ProcessItem(data[i], i))
  }

  /**
   * An item keeps what it set: its function, its extra fields, its colour, its type and graph
   * type when given. Missing colours cycle through the legend with period seven, and every item
   * ends up with a non-empty label and colour.
   */
  lemma ProcessItemDefaults(item: FunctionItem, index: nat)
    ensures var r := ProcessItem(item, index);
      && r.fn == item.fn && r.points == item.points && r.vector == item.vector
      && r.closed == item.closed && r.nSamples == item.nSamples
      && (Truthy(item.fnType) ==> r.fnType == item.fnType.value)
      && (!Truthy(item.fnType) ==> r.fnType == "linear")
      && (Truthy(item.color) ==> r.color == item.color.value)
      && (!Truthy(item.color) ==> r.color == LEGEND_COLORS[index % 7] && r.color == ProcessItem(item, index + 7).color)
      && r.color != []
      && r.labelText != []
  {
    assert (index + 7) % 7 == index % 7;
  }

  /**
   * `drawGraph` up to the call into the plotting library. Text that does not parse shows the
   * parse error; `null` parses but throws at `parsed.data`, and that error's message is shown.
   */
  function Draw(parsed: Option<ParsedJson>): (outcome: Outcome)
    ensures parsed.None? <==> outcome == Failed(PARSE_ERROR)
    ensures parsed == Some(JsonNull) <==> outcome == Failed(NULL_DATA_ERROR)
    ensures outcome.Drawn? <==> parsed.Some? && parsed.value.JsonValue?
  {
    match parsed
    case None => Failed(PARSE_ERROR)
    case Some(JsonNull) => Failed(NULL_DATA_ERROR)
    case Some(JsonValue(p)) =>
      var config := Normalize(p);
      var xAxis := config.xAxis.Coalesce(Axis(None, None));
      var yAxis := config.yAxis.Coalesce(Axis(None, None));
      Drawn(Plot(config.title, config.grid != Some(false), config.disableZoom,
        xAxis.domain.Coalesce(DEFAULT_DOMAIN), yAxis.domain.Coalesce(DEFAULT_DOMAIN),
        Or(xAxis.labelText, "x"), Or(yAxis.labelText, "y"), ProcessData(config.data)))
  }

  /**
   * A drawn plot has one item per configured item, in order; the grid is off only when the
   * configuration says `false`; unlabelled axes are called x and y.
   */
  lemma DrawFacts(p: ParsedPlot)
    ensures var plot := Draw(Some(JsonValue(p))).plot;
      var config := Normalize(p);
      && |plot.data| == |config.data|
      && (forall i :: 0 <= i < |config.data| ==> plot.data[i] == ProcessItem(config.data[i], i))
      && (plot.grid <==> config.grid != Some(false))
      && (config.xAxis.None? || !Truthy(config.xAxis.value.labelText) ==> plot.xLabel == "x")
      && (config.yAxis.None? || !Truthy(config.yAxis.value.labelText) ==> plot.yLabel == "y")
  {
  }

  /**
   * The one-function shorthand draws exactly one linear polyline in the first colour, labelled
   * with its function (or x), over the given domain (or [-10, 10]) by [-10, 10], with a grid.
   */
  lemma ShorthandPlot(p: ParsedPlot)
    requires p.data.None?
    ensures var plot := Draw(Some(JsonValue(p))).plot;
      && |plot.data| == 1
      && plot.data[0].fn == Some(Or(p.fn, "x"))
      && plot.data[0].fnType == "linear"
      && plot.data[0].graphType == "polyline"
      && plot.data[0].color == LEGEND_COLORS[0]
      && plot.data[0].labelText == Or(p.fn, "x")
      && plot.xDomain == p.domain.Coalesce(DEFAULT_DOMAIN)
      && plot.yDomain == DEFAULT_DOMAIN
      && plot.grid
      && plot.xLabel == "x" && plot.yLabel == "y"
  {
    var item := Normalize(p).data[0];
    assert Or(item.fn, "x") != [];
    assert !Truthy(item.labelText) ==> Label(item, 0) == Or(p.fn, "x");
  }
}
