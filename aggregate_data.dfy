/**
 * The shapes of GroheApiClasses/AggregateData.cs: what the cloud answers to an aggregated-data
 * request. Decimal fields are carried as reals and never computed with.
 */
module Aggregates {
  import opened Wrappers

  /** The cloud's grouping (the `Aggregation` enum of AggregateData.cs). */
  datatype Aggregation = Unknown | Hour | Day | Week | Month | Year

  datatype Measurement = Measurement(
    when: string,
    flowRate: Option<real>,
    pressure: Option<real>,
    temperatureGuard: Option<real>,
    temperature: Option<real>,
    humidity: Option<int>)

  datatype Withdrawal = Withdrawal(
    when: string,
    waterConsumption: Option<real>,
    hotWaterShare: Option<real>,
    waterCost: Option<real>,
    energyCost: Option<real>)

  /** The `data` object; either list may be absent (null) in the JSON. */
  datatype Payload = Payload(
    groupBy: string,
    measurements: Option<seq<Measurement>>,
    withdrawals: Option<seq<Withdrawal>>)

  datatype AggregateData = AggregateData(applianceId: string, typeValue: int, data: Option<Payload>)
}
