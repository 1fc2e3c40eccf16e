// The simple dashboard widgets of awsx-classic's CloudWatch package
// (awsx-classic/cloudwatch/widgets_simple.ts): their size checks and
// defaults, the JSON entry each adds to a dashboard, the space widget that
// adds none, and the metric widget's annotations, statistic and period.
// What an annotation or a metric writes into the widget's JSON is a
// function parameter.
module CloudwatchWidgets {
  import opened Wrappers
  import opened Text

  /** The size the caller asks for, in grid units. */
  datatype SimpleWidgetArgs = SimpleWidgetArgs(width: Option<int>, height: Option<int>)

  const WidthRange: string := "[args.width] must be between 1 and 24 (inclusive)."
  const HeightRange: string := "[args.height] must be between 1 and 1000 (inclusive)."

  /** The `SimpleWidget` constructor's checks: a given width must be 1..24, a given height 1..1000. */
  function CheckSize(args: SimpleWidgetArgs): (r: Outcome)
    ensures r.Pass? <==> (args.width.None? || 1 <= args.width.value <= 24) && (args.height.None? || 1 <= args.height.value <= 1000)
    ensures r.Reject? && (args.width.None? || 1 <= args.width.value <= 24) ==> r.error == HeightRange
    ensures r.Reject? && !(args.width.None? || 1 <= args.width.value <= 24) ==> r.error == WidthRange
  {
    if args.width.Some? && (args.width.value < 1 || args.width.value > 24) then Reject(WidthRange)
    else if args.height.Some? && (args.height.value < 1 || args.height.value > 1000) then Reject(HeightRange)
    else Pass
  }

  /** `T | T[] | undefined` for annotations and metrics. */
  datatype OneOrMany<T> = One(item: T) | Many(items: seq<T>)

  /** `flattenArray`: an array is itself, a single value a one-element array, nothing the empty array. */
  function FlattenArray<T>(value: Option<OneOrMany<T>>): (r: seq<T>)
    ensures value.None? ==> r == []
    ensures value.Some? && value.value.One? ==> r == [value.value.item]
    ensures value.Some? && value.value.Many? ==> r == value.value.items
  {
    if value.None? then [] else if value.value.One? then [value.value.item] else value.value.items
  }

  /** An annotation of a metric widget; the alarm annotation is the one the widget creates itself. */
  datatype Annotation = AlarmAnnotation(alarmArn: string) | GivenAnnotation(id: string)

  /** The `alarm` argument: an alarm ARN, or an object with an `arn`. */
  datatype WidgetAlarm = AlarmArn(arn: string) | AlarmObject(objectArn: string)

  /** The arguments of a metric widget that the model reads. */
  datatype MetricWidgetArgs = MetricWidgetArgs(
    size: SimpleWidgetArgs, alarm: Option<WidgetAlarm>, annotations: Option<OneOrMany<Annotation>>,
    metrics: Option<OneOrMany<string>>, title: Option<string>, period: Option<int>, region: Option<string>,
    statistic: Option<string>, extendedStatistic: Option<string>)

  /** The view of a metric widget's subclass. */
  datatype MetricView = MetricView(view: string, stacked: bool, yAxis: Option<string>)

  /** A simple widget: what it displays, and the size the caller asked for. */
  datatype WidgetKind =
    | AlarmWidget(alarms: seq<string>, sortBy: Option<string>, states: Option<seq<string>>, alarmTitle: Option<string>)
    | TextWidget(markdown: string)
    | MetricWidget(metricArgs: MetricWidgetArgs, annotations: seq<Annotation>, metrics: seq<string>, metricView: MetricView)
    | LogWidget(query: string, logTitle: Option<string>, logRegion: Option<string>)

  datatype SimpleWidget = SimpleWidget(args: SimpleWidgetArgs, kind: WidgetKind)
  {
    /** The width, 6 unless given. */
    function Width(): (r: int)
      ensures args.width.Some? ==> r == args.width.value
      ensures args.width.None? ==> r == 6
    {
      args.width.GetOr(6)
    }

    /** The height, unless given 2 for alarm and log widgets and 6 for the others. */
    function Height(): (r: int)
      ensures args.height.Some? ==> r == args.height.value
      ensures args.height.None? && (kind.AlarmWidget? || kind.LogWidget?) ==> r == 2
      ensures args.height.None? && (kind.TextWidget? || kind.MetricWidget?) ==> r == 6
    {
      args.height.GetOr(if kind.AlarmWidget? || kind.LogWidget? then 2 else 6)
    }

    /** The JSON type of the widget. */
    function Type(): string
    {
      match kind
      case AlarmWidget(_, _, _, _) => "alarm"
      case TextWidget(_) => "text"
      case MetricWidget(_, _, _, _) => "metric"
      case LogWidget(_, _, _) => "log"
    }
  }

  /** A widget whose size passed the checks has a width in 1..24 and a height in 1..1000. */
  lemma CheckedSizeInRange(widget: SimpleWidget)
    requires CheckSize(widget.args).Pass?
    ensures 1 <= widget.Width() <= 24 && 1 <= widget.Height() <= 1000
  {
  }

  /** The `AlarmWidget`, `TextWidget` and `LogWidget` constructors: only the size is checked. */
  function NewSimpleWidget(args: SimpleWidgetArgs, kind: WidgetKind): (r: Result<SimpleWidget>)
    requires !kind.MetricWidget?
    ensures r.Ok? <==> CheckSize(args).Pass?
    ensures r.Fail? ==> r.error == CheckSize(args).error
    ensures r.Ok? ==> r.value == SimpleWidget(args, kind) && 1 <= r.value.Width() <= 24 && 1 <= r.value.Height() <= 1000
  {
    var check := CheckSize(args);
    if check.Reject? then Fail(check.error)
    else
      CheckedSizeInRange(SimpleWidget(args, kind));
      Ok(SimpleWidget(args, kind))
  }

  /** `new TextWidget(markdown)`: a text widget of the default size. */
  function TextWidgetOf(markdown: string): (r: SimpleWidget)
    ensures r.Width() == 6 && r.Height() == 6 && r.Type() == "text"
    ensures NewSimpleWidget(SimpleWidgetArgs(None, None), TextWidget(markdown)) == Ok(r)
  {
    SimpleWidget(SimpleWidgetArgs(None, None), TextWidget(markdown))
  }

  const NoMetrics: string := "[args.metrics] must be provided if [args.annotations] is not provided."

  /** The ARN an `alarm` argument stands for: `alarm.arn || alarm`. */
  function AlarmArnOf(alarm: WidgetAlarm): string
  {
    if alarm.AlarmArn? then alarm.arn else alarm.objectArn
  }

  /** `if (alarm)`: an empty ARN string is falsy; an object never is. */
  predicate AlarmGiven(alarm: Option<WidgetAlarm>)
  {
    alarm.Some? && !(alarm.value.AlarmArn? && alarm.value.arn == "")
  }

  /**
   * The `MetricWidget` constructor: the size is checked, the annotations
   * and metrics are flattened, a given alarm adds an alarm annotation last,
   * and a widget with neither annotations nor metrics is refused.
   */
  method NewMetricWidget(args: MetricWidgetArgs, view: MetricView) returns (r: Result<SimpleWidget>)
    ensures CheckSize(args.size).Reject? ==> r == Fail(CheckSize(args.size).error)
    ensures r.Ok? <==> (CheckSize(args.size).Pass? &&
      (|FlattenArray(args.annotations)| > 0 || |FlattenArray(args.metrics)| > 0 || AlarmGiven(args.alarm)))
    ensures r.Fail? && CheckSize(args.size).Pass? ==> r.error == NoMetrics
    ensures r.Ok? ==> r.value.args == args.size && r.value.kind.MetricWidget?
    ensures r.Ok? ==> r.value.kind.metrics == FlattenArray(args.metrics) && r.value.kind.metricView == view
    ensures r.Ok? ==> (r.value.kind.annotations == FlattenArray(args.annotations) +
      (if AlarmGiven(args.alarm) then [AlarmAnnotation(AlarmArnOf(args.alarm.value))] else []))
  {
    var check := CheckSize(args.size);
    if check.Reject? {
      return Fail(check.error);
    }
    var annotations := FlattenArray(args.annotations);
    var metrics := FlattenArray(args.metrics);
    if AlarmGiven(args.alarm) {
      annotations := annotations + [AlarmAnnotation(AlarmArnOf(args.alarm.value))];
    }
    if |annotations| == 0 && |metrics| == 0 {
      return Fail(NoMetrics);
    }
    r := Ok(SimpleWidget(args.size, MetricWidget(args, annotations, metrics, view)));
  }

  const BothStatistics: string := "[args.statistic] and [args.extendedStatistic] cannot both be provided."

  /**
   * `statisticString`: not both; an extended statistic (its number as text)
   * becomes "p" followed by it, else the statistic, if any.
   */
  function StatisticString(extendedStatistic: Option<string>, statistic: Option<string>): (r: Result<Option<string>>)
    ensures r.Fail? <==> extendedStatistic.Some? && statistic.Some?
    ensures r.Fail? ==> r.error == BothStatistics
    ensures r.Ok? && extendedStatistic.Some? ==> r.value == Some("p" + extendedStatistic.value)
    ensures r.Ok? && extendedStatistic.None? ==> r.value == statistic
  {
    if statistic.Some? && extendedStatistic.Some? then Fail(BothStatistics)
    else if extendedStatistic.Some? then Ok(Some("p" + extendedStatistic.value))
    else Ok(statistic)
  }

  /** The period error names the period. */
  function PeriodError(period: int): string
  {
    "Dashboard metric period must be a multiple of 60: " + IntToString(period)
  }

  /** The properties of a metric widget's JSON; annotations and metrics are absent when there are none. */
  datatype MetricProperties = MetricProperties(
    stat: Option<string>, metrics: Option<seq<string>>, annotations: Option<seq<string>>, title: Option<string>,
    period: int, region: string, view: MetricView)

  /** The JSON an annotation or a metric writes, in order. */
  function JsonOf<T>(items: seq<T>, write: T -> string): (r: seq<string>)
    ensures |r| == |items|
    ensures forall i :: 0 <= i < |items| ==> r[i] == write(items[i])
  {
    if |items| == 0 then [] else JsonOf(items[..|items| - 1], write) + [write(items[|items| - 1])]
  }

  /** Each item in turn writes its JSON: `for (const x of items) x.addWidgetJson(json)`. */
  method WriteAll<T>(items: seq<T>, write: T -> string) returns (json: seq<string>)
    ensures json == JsonOf(items, write)
  {
    json := [];
    var i := 0;
    while i < |items|
      invariant 0 <= i <= |items|
      invariant json == JsonOf(items[..i], write)
    {
      assert items[..i + 1][..i] == items[..i];
      json := json + [write(items[i])];
      i := i + 1;
    }
    assert items[..i] == items;
  }

  /**
   * The metric widget's `computeProperties`: the statistic, the annotations
   * and metrics written in order (absent when empty), the period (300
   * unless given, and a multiple of 60), and the widget's or else the
   * stack's region.
   */
  method ComputeMetricProperties(widget: SimpleWidget, stackRegion: string,
                                 writeAnnotation: Annotation -> string, writeMetric: string -> string)
    returns (r: Result<MetricProperties>)
    requires widget.kind.MetricWidget?
    ensures var args := widget.kind.metricArgs;
      r.Fail? <==> StatisticString(args.extendedStatistic, args.statistic).Fail? || args.period.GetOr(300) % 60 != 0
    ensures var args := widget.kind.metricArgs;
      r.Fail? && StatisticString(args.extendedStatistic, args.statistic).Ok? ==> r.error == PeriodError(args.period.GetOr(300))
    ensures r.Ok? ==> var args := widget.kind.metricArgs;
      && r.value.stat == StatisticString(args.extendedStatistic, args.statistic).value
      && r.value.period == args.period.GetOr(300) && r.value.period % 60 == 0
      && r.value.region == args.region.GetOr(stackRegion)
      && r.value.title == args.title
      && (r.value.annotations.Some? <==> |widget.kind.annotations| > 0)
      && (r.value.annotations.Some? ==> r.value.annotations.value == JsonOf(widget.kind.annotations, writeAnnotation))
      && (r.value.metrics.Some? <==> |widget.kind.metrics| > 0)
      && (r.value.metrics.Some? ==> r.value.metrics.value == JsonOf(widget.kind.metrics, writeMetric))
  {
    var args := widget.kind.metricArgs;
    var stat := StatisticString(args.extendedStatistic, args.statistic);
    if stat.Fail? {
      return Fail(stat.error);
    }
    var annotations: Option<seq<string>> := None;
    if |widget.kind.annotations| > 0 {
      var json := WriteAll(widget.kind.annotations, writeAnnotation);
      annotations := Some(json);
    }
    var metrics: Option<seq<string>> := None;
    if |widget.kind.metrics| > 0 {
      var json := WriteAll(widget.kind.metrics, writeMetric);
      metrics := Some(json);
    }
    var period := args.period.GetOr(300);
    if period % 60 != 0 {
      return Fail(PeriodError(period));
    }
    r := Ok(MetricProperties(stat.value, metrics, annotations, args.title, period, args.region.GetOr(stackRegion),
                             widget.kind.metricView));
  }

  /** One widget's entry in a dashboard's JSON; the properties are left to the widget kind. */
  datatype WidgetJson = WidgetJson(x: int, y: int, width: int, height: int, widgetType: string)

  /** The dashboard's list of widget entries, which widgets append to. */
  class WidgetJsons {
    var entries: seq<WidgetJson>

    constructor()
      ensures entries == []
    {
      entries := [];
    }

    /** `addWidgetJson` of a simple widget: exactly one entry, at the offsets, with the widget's size and type. */
    method AddWidgetJson(widget: SimpleWidget, xOffset: int, yOffset: int)
      modifies this
      ensures entries == old(entries) + [WidgetJson(xOffset, yOffset, widget.Width(), widget.Height(), widget.Type())]
    {
      entries := entries + [WidgetJson(xOffset, yOffset, widget.Width(), widget.Height(), widget.Type())];
    }
  }

  /** A space widget: the given width and height, or each 6 unless given; it is not checked. */
  datatype SpaceWidget = SpaceWidget(width: int, height: int)

  /** The two ways to make a space widget: a width and a height, or widget arguments. */
  datatype SpaceWidgetInput = Size(width: int, height: int) | FromArgs(args: SimpleWidgetArgs)

  /** `new SpaceWidget(width, height)` keeps both; `new SpaceWidget(args)` defaults each to 6. */
  function NewSpaceWidget(input: SpaceWidgetInput): (r: SpaceWidget)
    ensures input.Size? ==> r == SpaceWidget(input.width, input.height)
    ensures input.FromArgs? ==> r.width == input.args.width.GetOr(6) && r.height == input.args.height.GetOr(6)
  {
    match input
    case Size(width, height) => SpaceWidget(width, height)
    case FromArgs(args) => SpaceWidget(args.width.GetOr(6), args.height.GetOr(6))
  }

  /** A space widget's `addWidgetJson` adds nothing: it only takes up room in the grid. */
  method AddSpaceWidgetJson(widget: SpaceWidget, jsons: WidgetJsons, xOffset: int, yOffset: int)
    ensures jsons.entries == old(jsons.entries)
  {
  }
}
