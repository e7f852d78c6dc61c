/**
 * Controllers/DataController.cs: GET api/data/aggregated/{applianceId}/{aggregation}, which turns
 * the cloud's aggregated measurements and withdrawals into data points dated by the grouping.
 * The controller sees the ApiClient through its answers: `appliances` is what GetAppliances
 * returned under the lock, and `aggregated` what GetAggregatedData returns for its arguments.
 * DateTime values are whole seconds on the unix scale.
 */
module DataControl {
  import opened Wrappers
  import opened Dictionaries
  import opened Appliances
  import opened ApplianceGraph
  import Aggregates
  import opened Replies
  import opened Foreach
  import Text
  import DateTimes

  /** The grouping a client asks for; unlike the cloud's, it has no Unknown member. */
  datatype ApiAggregation = Hour | Day | Week | Month | Year

  /** The date of a data point: the year always, the other parts as the grouping provides them. */
  datatype DateFields = DateFields(year: int, month: Option<int>, day: Option<int>, hour: Option<int>, weekNumber: Option<int>)

  /** The values of a data point: a SenseGuard or a Sense measurement, or a withdrawal. */
  datatype PointValues =
    | SenseGuardValues(flowRate: Option<real>, pressure: Option<real>, temperatureGuard: Option<real>)
    | SenseValues(temperature: Option<real>, humidity: Option<int>)
    | WithdrawalValues(waterConsumption: Option<real>, hotWaterShare: Option<real>, waterCost: Option<real>, energyCost: Option<real>)

  datatype DataPoint = DataPoint(date: DateFields, values: PointValues)

  datatype AggregatedData = AggregatedData(
    applianceId: string,
    applianceName: string,
    kind: ApplianceType,
    aggregation: ApiAggregation,
    measurements: seq<DataPoint>,
    withdrawals: seq<DataPoint>)

  /** What the action does on the ApiClient and its lock, in order. */
  datatype DataCall =
    | Acquire
    | ListAppliances
    | FetchAggregate(applianceId: string, aggregation: Aggregates.Aggregation, from: int, to: int)
    | Release

  /** The switch from the client's grouping to the cloud's. */
  function ToAggregation(a: ApiAggregation): (r: Aggregates.Aggregation)
    ensures r != Aggregates.Aggregation.Unknown
  {
    match a
    case Hour => Aggregates.Hour
    case Day => Aggregates.Day
    case Week => Aggregates.Week
    case Month => Aggregates.Month
    case Year => Aggregates.Year
  }

  /** SplitWhen: the pieces between the dashes, each read by int.Parse; the first bad piece throws. */
  function SplitWhen(s: string): (r: Result<seq<int>>)
    ensures r.Ok? ==> |r.value| == |Text.Split(s, '-')| >= 1
    ensures r.Ok? ==> forall i :: 0 <= i < |r.value| ==> Text.Int32Min <= r.value[i] <= Text.Int32Max
    ensures r.Err? ==> r.error == Format || r.error == Overflow
  {
    Run(Text.Split(s, '-'), Text.ParseInt32)
  }

  /** How many pieces a grouping reads from the date text. */
  function Needed(a: ApiAggregation): nat {
    match a
    case Hour => 0
    case Day => 3
    case Week => 2
    case Month => 2
    case Year => 1
  }

  /** The date parts a grouping other than Hour takes from the pieces, in the order the text gives them. */
  function FieldsOf(a: ApiAggregation, ns: seq<int>): (r: DateFields)
    requires a != Hour && |ns| >= Needed(a)
    ensures r.year == ns[0]
    ensures r.hour.None?
    ensures a == Day ==> r.month == Some(ns[1]) && r.day == Some(ns[2]) && r.weekNumber.None?
    ensures a == Week ==> r.weekNumber == Some(ns[1]) && r.month.None? && r.day.None?
    ensures a == Month ==> r.month == Some(ns[1]) && r.day.None? && r.weekNumber.None?
    ensures a == Year ==> r.month.None? && r.day.None? && r.weekNumber.None?
  {
    match a
    case Day => DateFields(ns[0], Some(ns[1]), Some(ns[2]), None, None)
    case Week => DateFields(ns[0], None, None, None, Some(ns[1]))
    case Month => DateFields(ns[0], Some(ns[1]), None, None, None)
    case Year => DateFields(ns[0], None, None, None, None)
  }

  /**
   * SetMeasurementDate: Hour reads the text as "yyyy-MM-dd HH:mm:ss"; the others split it on
   * dashes, parse every piece, and index the pieces they need, which throws when there are
   * too few.
   */
  function DateFieldsOf(a: ApiAggregation, when: string): (r: Result<DateFields>)
    ensures a == Hour ==> (r.Ok? <==> DateTimes.ParseExact(when).Ok?)
    ensures a == Hour && r.Err? ==> r.error == Format
    ensures a != Hour ==> (r.Ok? <==> SplitWhen(when).Ok? && |SplitWhen(when).value| >= Needed(a))
    ensures a != Hour && |Text.Split(when, '-')| < Needed(a) ==> r.Err?
    ensures a != Hour && r.Err? ==>
      (r.error == ArgumentOutOfRange <==> SplitWhen(when).Ok?) && (r.error in {Format, Overflow, ArgumentOutOfRange})
    ensures r.Ok? ==> (r.value.month.Some? <==> a in {Hour, Day, Month})
    ensures r.Ok? ==> (r.value.day.Some? <==> a in {Hour, Day})
    ensures r.Ok? ==> (r.value.hour.Some? <==> a == Hour)
    ensures r.Ok? ==> (r.value.weekNumber.Some? <==> a == Week)
  {
    if a == Hour then
      match DateTimes.ParseExact(when)
      case Err(e) => Err(e)
      case Ok(p) => Ok(DateFields(p.year, Some(p.month), Some(p.day), Some(p.hour), None))
    else
      match SplitWhen(when)
      case Err(e) => Err(e)
      case Ok(ns) => if |ns| < Needed(a) then Err(ArgumentOutOfRange) else Ok(FieldsOf(a, ns))
  }

  /** The type switch for one measurement: the fields of the appliance's kind; an Unknown appliance throws. */
  function MeasurementValues(kind: ApplianceType, m: Aggregates.Measurement): (r: Result<PointValues>)
    ensures r.Err? <==> kind == Unknown
    ensures r.Err? ==> r.error == Failure("Appliance type unknown")
    ensures kind == SenseGuard ==>
      r.Ok? && r.value.SenseGuardValues? && r.value.flowRate == m.flowRate && r.value.pressure == m.pressure
      && r.value.temperatureGuard == m.temperatureGuard
    ensures kind == Sense ==>
      r.Ok? && r.value.SenseValues? && r.value.temperature == m.temperature && r.value.humidity == m.humidity
  {
    match kind
    case SenseGuard => Ok(SenseGuardValues(m.flowRate, m.pressure, m.temperatureGuard))
    case Sense => Ok(SenseValues(m.temperature, m.humidity))
    case Unknown => Err(Failure("Appliance type unknown"))
  }

  /** One measurement: the type switch first, then its date. */
  function MeasurementPoint(kind: ApplianceType, a: ApiAggregation, m: Aggregates.Measurement): (r: Result<DataPoint>)
    ensures kind == Unknown ==> r == Err(Failure("Appliance type unknown"))
    ensures r.Ok? <==> kind != Unknown && DateFieldsOf(a, m.when).Ok?
    ensures r.Err? && kind != Unknown ==> r == Err(DateFieldsOf(a, m.when).error)
    ensures r.Ok? ==> r.value.date == DateFieldsOf(a, m.when).value && Ok(r.value.values) == MeasurementValues(kind, m)
  {
    match MeasurementValues(kind, m)
    case Err(e) => Err(e)
    case Ok(values) =>
      match DateFieldsOf(a, m.when)
      case Err(e) => Err(e)
      case Ok(date) => Ok(DataPoint(date, values))
  }

  /** One withdrawal: its four figures, then its date. */
  function WithdrawalPoint(a: ApiAggregation, w: Aggregates.Withdrawal): (r: Result<DataPoint>)
    ensures r.Ok? <==> DateFieldsOf(a, w.when).Ok?
    ensures r.Err? ==> r == Err(DateFieldsOf(a, w.when).error)
    ensures r.Ok? ==> r.value.date == DateFieldsOf(a, w.when).value
    ensures r.Ok? ==> r.value.values == WithdrawalValues(w.waterConsumption, w.hotWaterShare, w.waterCost, w.energyCost)
  {
    match DateFieldsOf(a, w.when)
    case Err(e) => Err(e)
    case Ok(date) => Ok(DataPoint(date, WithdrawalValues(w.waterConsumption, w.hotWaterShare, w.waterCost, w.energyCost)))
  }

  function MeasurementBody(kind: ApplianceType, a: ApiAggregation): Aggregates.Measurement -> Result<DataPoint> {
    (m: Aggregates.Measurement) => MeasurementPoint(kind, a, m)
  }

  function WithdrawalBody(a: ApiAggregation): Aggregates.Withdrawal -> Result<DataPoint> {
    (w: Aggregates.Withdrawal) => WithdrawalPoint(a, w)
  }

  /** `list ?? []`: a list missing from the JSON is iterated as empty. */
  function OrEmpty<T>(list: Option<seq<T>>): (r: seq<T>)
    ensures list.Some? ==> r == list.value
    ensures list.None? ==> r == []
  {
    if list.Some? then list.value else []
  }

  /** The three checks made before the lock is taken, in their order. */
  function Validate(from: int, to: int): (r: Option<string>)
    ensures r.None? <==> from <= to && from != DateTimes.MinValue && to != DateTimes.MinValue
    ensures from > to ==> r == Some("Time machine not implemented yet")
    ensures from <= to && from == DateTimes.MinValue ==> r == Some("From is not set")
    ensures from <= to && from != DateTimes.MinValue && to == DateTimes.MinValue ==> r == Some("To is not set")
  {
    if from > to then Some("Time machine not implemented yet")
    else if from == DateTimes.MinValue then Some("From is not set")
    else if to == DateTimes.MinValue then Some("To is not set")
    else None
  }

  /**
   * GetSenseDetails: 400 for the dates, 404 for an appliance not in GetAppliances, otherwise
   * the aggregated data with one point per measurement and per withdrawal. A null answer or
   * a null Data is dereferenced and throws.
   */
  function DataReply(applianceId: string, a: ApiAggregation, from: int, to: int,
    appliances: Result<Dict<string, Appliance>>,
    aggregated: (string, Aggregates.Aggregation, int, int) -> Result<Option<Aggregates.AggregateData>>): Result<Reply<AggregatedData>>
  {
    var invalid := Validate(from, to);
    if invalid.Some? then Ok(BadRequest(invalid.value))
    else if appliances.Err? then Err(appliances.error)
    else match Get(appliances.value, applianceId)
      case None => Ok(NotFound(Some("Appliance not found")))
      case Some(appliance) =>
        var fetched := aggregated(applianceId, ToAggregation(a), from, to);
        if fetched.Err? then Err(fetched.error)
        else if fetched.value.None? || fetched.value.value.data.None? then Err(NullReference)
        else
          Convert(appliance, a, fetched.value.value.data.value)
  }

  /** The two foreach loops: every measurement, then every withdrawal, converted in order. */
  function Convert(appliance: Appliance, a: ApiAggregation, payload: Aggregates.Payload): Result<Reply<AggregatedData>> {
    match Run(OrEmpty(payload.measurements), MeasurementBody(appliance.kind, a))
    case Err(e) => Err(e)
    case Ok(ms) =>
      match Run(OrEmpty(payload.withdrawals), WithdrawalBody(a))
      case Err(e) => Err(e)
      case Ok(ws) => Ok(Success(AggregatedData(appliance.id, appliance.name, appliance.kind, a, ms, ws)))
  }

  /**
   * The calls GetSenseDetails makes: none when the dates are rejected; otherwise the lock is
   * taken, the appliances listed, the aggregate fetched for an appliance that exists, and the
   * lock released on every way out, exceptions included.
   */
  function DataCalls(applianceId: string, a: ApiAggregation, from: int, to: int,
    appliances: Result<Dict<string, Appliance>>): (calls: seq<DataCall>)
    ensures calls == [] <==> Validate(from, to).Some?
    ensures calls != [] ==> calls[0] == Acquire && calls[|calls| - 1] == Release
    ensures calls != [] ==> Acquire !in calls[1..] && Release !in calls[..|calls| - 1]
    ensures FetchAggregate(applianceId, ToAggregation(a), from, to) in calls <==>
      Validate(from, to).None? && appliances.Ok? && applianceId in Keys(appliances.value)
  {
    if Validate(from, to).Some? then []
    else if appliances.Err? then [Acquire, ListAppliances, Release]
    else
      GetSome(appliances.value, applianceId);
      if Get(appliances.value, applianceId).None? then [Acquire, ListAppliances, Release]
      else [Acquire, ListAppliances, FetchAggregate(applianceId, ToAggregation(a), from, to), Release]
  }

  /** The action: the checks, the lock, the lookups and the two foreach loops. */
  method GetSenseDetails(applianceId: string, a: ApiAggregation, from: int, to: int,
    appliances: Result<Dict<string, Appliance>>,
    aggregated: (string, Aggregates.Aggregation, int, int) -> Result<Option<Aggregates.AggregateData>>)
    returns (r: Result<Reply<AggregatedData>>, calls: seq<DataCall>)
    ensures r == DataReply(applianceId, a, from, to, appliances, aggregated)
    ensures calls == DataCalls(applianceId, a, from, to, appliances)
  {
    if from > to {
      return Ok(BadRequest("Time machine not implemented yet")), [];
    }
    if from == DateTimes.MinValue {
      return Ok(BadRequest("From is not set")), [];
    }
    if to == DateTimes.MinValue {
      return Ok(BadRequest("To is not set")), [];
    }
    calls := [Acquire, ListAppliances];
    if appliances.Err? {
      return Err(appliances.error), calls + [Release];
    }
    var found := Get(appliances.value, applianceId);
    if found.None? {
      return Ok(NotFound(Some("Appliance not found"))), calls + [Release];
    }
    var appliance := found.value;
    var groheAggregation := ToAggregation(a);
    var fetched := aggregated(applianceId, groheAggregation, from, to);
    calls := calls + [FetchAggregate(applianceId, groheAggregation, from, to), Release];
    if fetched.Err? {
      return Err(fetched.error), calls;
    }
    if fetched.value.None? || fetched.value.value.data.None? {
      return Err(NullReference), calls;
    }
    r := ConvertPayload(appliance, a, fetched.value.value.data.value);
  }

  /** The result object filled by the two foreach loops. */
  method ConvertPayload(appliance: Appliance, a: ApiAggregation, payload: Aggregates.Payload)
    returns (r: Result<Reply<AggregatedData>>)
    ensures r == Convert(appliance, a, payload)
  {
    var measurements := Collect(OrEmpty(payload.measurements), MeasurementBody(appliance.kind, a));
    if measurements.Err? {
      return Err(measurements.error);
    }
    var withdrawals := Collect(OrEmpty(payload.withdrawals), WithdrawalBody(a));
    if withdrawals.Err? {
      return Err(withdrawals.error);
    }
    r := Ok(Success(AggregatedData(appliance.id, appliance.name, appliance.kind, a, measurements.value, withdrawals.value)));
  }

  /** The 404: the dates pass and the id is not a key of GetAppliances. */
  lemma NotFoundSpec(applianceId: string, a: ApiAggregation, from: int, to: int,
    appliances: Result<Dict<string, Appliance>>,
    aggregated: (string, Aggregates.Aggregation, int, int) -> Result<Option<Aggregates.AggregateData>>)
    ensures DataReply(applianceId, a, from, to, appliances, aggregated) == Ok(NotFound(Some("Appliance not found"))) <==>
      Validate(from, to).None? && appliances.Ok? && applianceId !in Keys(appliances.value)
  {
    if appliances.Ok? {
      GetSome(appliances.value, applianceId);
    }
  }

  /**
   * A 200 describes the appliance found under the id and carries one point per measurement
   * and per withdrawal, in order, each the conversion of its source.
   */
  lemma SuccessSpec(applianceId: string, a: ApiAggregation, from: int, to: int,
    appliances: Result<Dict<string, Appliance>>,
    aggregated: (string, Aggregates.Aggregation, int, int) -> Result<Option<Aggregates.AggregateData>>)
    requires DataReply(applianceId, a, from, to, appliances, aggregated).Ok?
    requires DataReply(applianceId, a, from, to, appliances, aggregated).value.Success?
    ensures var body := DataReply(applianceId, a, from, to, appliances, aggregated).value.body;
      && appliances.Ok? && (body.applianceId, body.applianceName) == (Get(appliances.value, applianceId).value.id, Get(appliances.value, applianceId).value.name)
      && body.kind == Get(appliances.value, applianceId).value.kind && body.aggregation == a
      && var fetched := aggregated(applianceId, ToAggregation(a), from, to);
      && fetched.Ok? && fetched.value.Some? && fetched.value.value.data.Some?
      && var payload := fetched.value.value.data.value;
      && |body.measurements| == |OrEmpty(payload.measurements)|
      && (forall i :: 0 <= i < |body.measurements| ==>
            Ok(body.measurements[i]) == MeasurementPoint(body.kind, a, OrEmpty(payload.measurements)[i]))
      && |body.withdrawals| == |OrEmpty(payload.withdrawals)|
      && (forall i :: 0 <= i < |body.withdrawals| ==>
            Ok(body.withdrawals[i]) == WithdrawalPoint(a, OrEmpty(payload.withdrawals)[i]))
  {
    var appliance := Get(appliances.value, applianceId).value;
    var payload := aggregated(applianceId, ToAggregation(a), from, to).value.value.data.value;
    var ms := Run(OrEmpty(payload.measurements), MeasurementBody(appliance.kind, a));
    var ws := Run(OrEmpty(payload.withdrawals), WithdrawalBody(a));
    assert ms.Ok? && ws.Ok?;
  }

  /** An appliance of Unknown type cannot report measurements: the first one throws. */
  lemma UnknownKindThrows(applianceId: string, a: ApiAggregation, from: int, to: int,
    appliances: Result<Dict<string, Appliance>>,
    aggregated: (string, Aggregates.Aggregation, int, int) -> Result<Option<Aggregates.AggregateData>>)
    requires Validate(from, to).None? && appliances.Ok?
    requires Get(appliances.value, applianceId).Some? && Get(appliances.value, applianceId).value.kind == Unknown
    requires aggregated(applianceId, ToAggregation(a), from, to).Ok?
    requires aggregated(applianceId, ToAggregation(a), from, to).value.Some?
    requires aggregated(applianceId, ToAggregation(a), from, to).value.value.data.Some?
    requires OrEmpty(aggregated(applianceId, ToAggregation(a), from, to).value.value.data.value.measurements) != []
    ensures DataReply(applianceId, a, from, to, appliances, aggregated) == Err(Failure("Appliance type unknown"))
  {
    var payload := aggregated(applianceId, ToAggregation(a), from, to).value.value.data.value;
    var xs := OrEmpty(payload.measurements);
    var body := MeasurementBody(Unknown, a);
    assert body(xs[0]).Err?;
    var run := Run(xs, body);
    assert run.Err?;
    var i :| 0 <= i < |xs| && body(xs[i]) == Err(run.error);
  }

  /** Every text of the form "yyyy-MM-dd HH:mm:ss" is dated by its own year, month, day and hour. */
  lemma HourDate(p: DateTimes.Parts)
    requires DateTimes.Valid(p)
    ensures DateFieldsOf(Hour, DateTimes.Formatted(p)) == Ok(DateFields(p.year, Some(p.month), Some(p.day), Some(p.hour), None))
  {
    DateTimes.ParseFormat(p);
  }

  /** The numbers rendered by Int32.ToString. */
  function Rendered(ns: seq<int>): (r: seq<string>)
    ensures |r| == |ns| && forall i :: 0 <= i < |ns| ==> r[i] == Text.Render(ns[i])
  {
    seq(|ns|, i requires 0 <= i < |ns| => Text.Render(ns[i]))
  }

  /** SplitWhen reads back non-negative numbers written between dashes. */
  lemma SplitWhenJoin(ns: seq<int>)
    requires |ns| >= 1 && forall i :: 0 <= i < |ns| ==> 0 <= ns[i] <= Text.Int32Max
    ensures SplitWhen(Text.Join(Rendered(ns), '-')) == Ok(ns)
  {
    var pieces := Rendered(ns);
    forall i | 0 <= i < |pieces|
      ensures '-' !in pieces[i] && Text.ParseInt32(pieces[i]) == Ok(ns[i])
    {
      Text.ParseRender(ns[i]);
    }
    Text.JoinSplit(pieces, '-');
    var r := Run(pieces, Text.ParseInt32);
    assert r.Ok?;
    assert r.value == ns;
  }

  /** A date text with the pieces a grouping needs is dated by those pieces, in order. */
  lemma SplitDate(a: ApiAggregation, ns: seq<int>)
    requires a != Hour && |ns| == Needed(a) && forall i :: 0 <= i < |ns| ==> 0 <= ns[i] <= Text.Int32Max
    ensures DateFieldsOf(a, Text.Join(Rendered(ns), '-')) == Ok(FieldsOf(a, ns))
  {
    SplitWhenJoin(ns);
  }
}
