/**
 * Controllers/MaintenanceController.cs: battery and last-seen state of the selected appliances,
 * per appliance and combined, with optional warnings against a battery level and an offline
 * period. `selected` is what GetAppliances<BaseAppliance> returned; `now` is DateTime.UtcNow in
 * unix seconds, and every DateTime is a whole number of unix seconds.
 */
module MaintenanceControl {
  import opened Wrappers
  import opened Dictionaries
  import opened Appliances
  import opened ApplianceGraph
  import opened Replies
  import opened Foreach
  import DateTimes

  datatype DeviceState = DeviceState(
    id: string,
    batteryLevel: Option<int>,
    lastSeen: Option<int>,
    batteryWarning: Option<bool>,
    lastSeenWarning: Option<bool>,
    name: string,
    location: string,
    kind: ApplianceType)

  datatype DeviceStateCombined = DeviceStateCombined(
    lowestBatteryLevel: Option<int>,
    lowestLastSeen: Option<int>,
    batteryWarning: Option<bool>,
    lastSeenWarning: Option<bool>)

  /**
   * The Warning property of both reply shapes: unknown when neither warning was asked for,
   * otherwise raised when either warning is.
   */
  function Warning(batteryWarning: Option<bool>, lastSeenWarning: Option<bool>): (r: Option<bool>)
    ensures r.None? <==> batteryWarning.None? && lastSeenWarning.None?
    ensures r == Some(true) <==> batteryWarning == Some(true) || lastSeenWarning == Some(true)
    ensures r == Some(false) <==>
      (batteryWarning.Some? || lastSeenWarning.Some?) && batteryWarning != Some(true) && lastSeenWarning != Some(true)
  {
    if batteryWarning.None? && lastSeenWarning.None? then None
    else Some(batteryWarning == Some(true) || lastSeenWarning == Some(true))
  }

  /**
   * `DateTime.UtcNow.AddHours(-hours)`: the instant `hours` hours before now, which throws
   * ArgumentOutOfRangeException when it falls outside the DateTime range.
   */
  function SeenBefore(now: int, hours: int): (r: Result<int>)
    ensures r.Ok? <==> DateTimes.MinValue <= now - hours * 3600 <= DateTimes.MaxValue
    ensures r.Ok? ==> r.value == now - hours * 3600
    ensures r.Err? ==> r.error == ArgumentOutOfRange
  {
    var t := now - hours * 3600;
    if DateTimes.MinValue <= t <= DateTimes.MaxValue then Ok(t) else Err(ArgumentOutOfRange)
  }

  /**
   * One DeviceState: the battery level is the "battery" status entry when there is one; the
   * battery warning compares that entry, or 0 without one, to the level asked for; the
   * last-seen warning holds when the appliance was last seen before the offline period began,
   * and never for an appliance not seen at all. The right side of the lifted comparison is
   * computed whether or not the appliance was seen.
   */
  function DeviceOf(a: Appliance, batteryWarningLevel: Option<int>, seenOffsetWarningHours: Option<int>, now: int)
    : (r: Result<DeviceState>)
    ensures r.Err? <==> seenOffsetWarningHours.Some? && SeenBefore(now, seenOffsetWarningHours.value).Err?
    ensures r.Ok? ==>
      var d := r.value;
      && d.id == a.id && d.name == a.name && d.location == a.location.name && d.kind == a.kind
      && d.lastSeen == a.lastSeen
      && d.batteryLevel == Get(a.status, "battery")
      && (d.batteryWarning.None? <==> batteryWarningLevel.None?)
      && (batteryWarningLevel.Some? ==>
            var battery := Get(a.status, "battery");
            (d.batteryWarning == Some(true) <==>
               (battery.Some? && battery.value < batteryWarningLevel.value) || (battery.None? && 0 < batteryWarningLevel.value)))
      && (d.lastSeenWarning.None? <==> seenOffsetWarningHours.None?)
      && (seenOffsetWarningHours.Some? ==>
            (d.lastSeenWarning == Some(true) <==>
               a.lastSeen.Some? && a.lastSeen.value < now - seenOffsetWarningHours.value * 3600))
  {
    GetSome(a.status, "battery");
    var battery := Get(a.status, "battery");
    var batteryWarning :=
      if batteryWarningLevel.Some? then Some((if battery.Some? then battery.value else 0) < batteryWarningLevel.value)
      else None;
    if seenOffsetWarningHours.None? then
      Ok(DeviceState(a.id, battery, a.lastSeen, batteryWarning, None, a.name, a.location.name, a.kind))
    else
      match SeenBefore(now, seenOffsetWarningHours.value)
      case Err(e) => Err(e)
      case Ok(threshold) =>
        var lastSeenWarning := Some(a.lastSeen.Some? && a.lastSeen.value < threshold);
        Ok(DeviceState(a.id, battery, a.lastSeen, batteryWarning, lastSeenWarning, a.name, a.location.name, a.kind))
  }

  function DeviceBody(batteryWarningLevel: Option<int>, seenOffsetWarningHours: Option<int>, now: int)
    : Appliance -> Result<DeviceState>
  {
    (a: Appliance) => DeviceOf(a, batteryWarningLevel, seenOffsetWarningHours, now)
  }

  /** GetMaintenanceState: 404 on an empty selection, else one DeviceState per appliance. */
  function GetMaintenanceState(selected: Result<Dict<string, Appliance>>, batteryWarningLevel: Option<int>,
    seenOffsetWarningHours: Option<int>, now: int): Result<Reply<seq<DeviceState>>>
  {
    if selected.Err? then Err(selected.error)
    else if |selected.value| == 0 then Ok(NotFound(None))
    else
      match Run(Values(selected.value), DeviceBody(batteryWarningLevel, seenOffsetWarningHours, now))
      case Err(e) => Err(e)
      case Ok(states) => Ok(Success(states))
  }

  /**
   * The reply: 404 exactly on an empty selection; an exception only when a last-seen warning is
   * asked for with an offset outside the DateTime range; otherwise the states of the
   * appliances, in order.
   */
  lemma GetMaintenanceStateSpec(appliances: Dict<string, Appliance>, batteryWarningLevel: Option<int>,
    seenOffsetWarningHours: Option<int>, now: int)
    ensures var r := GetMaintenanceState(Ok(appliances), batteryWarningLevel, seenOffsetWarningHours, now);
      && (r.Err? <==> |appliances| > 0 && seenOffsetWarningHours.Some? && SeenBefore(now, seenOffsetWarningHours.value).Err?)
      && (r.Ok? ==> (r.value.NotFound? <==> |appliances| == 0))
      && (r.Ok? && |appliances| > 0 ==>
            r.value.Success? && |r.value.body| == |appliances|
            && forall i :: 0 <= i < |appliances| ==>
                 Ok(r.value.body[i]) == DeviceOf(appliances[i].1, batteryWarningLevel, seenOffsetWarningHours, now))
  {
    var values := Values(appliances);
    var body := DeviceBody(batteryWarningLevel, seenOffsetWarningHours, now);
    assert forall i :: 0 <= i < |values| ==>
      values[i] == appliances[i].1 && body(values[i]) == DeviceOf(appliances[i].1, batteryWarningLevel, seenOffsetWarningHours, now);
    if |appliances| > 0 {
      assert body(values[0]).Err? <==> seenOffsetWarningHours.Some? && SeenBefore(now, seenOffsetWarningHours.value).Err?;
    }
  }

  /** `Where(has battery).Select(battery)`: the battery entries, in appliance order. */
  function BatteryLevels(appliances: seq<Appliance>): (r: seq<int>)
    ensures forall x :: x in r <==> exists i :: 0 <= i < |appliances| && Get(appliances[i].status, "battery") == Some(x)
  {
    if appliances == [] then []
    else
      var rest := BatteryLevels(appliances[1..]);
      assert forall i :: 1 <= i < |appliances| ==> appliances[i] == appliances[1..][i - 1];
      var b := Get(appliances[0].status, "battery");
      (if b.Some? then [b.value] else []) + rest
  }

  /** `Where(LastSeen != null).Select(LastSeen)`: the last-seen times, in appliance order. */
  function Timestamps(appliances: seq<Appliance>): (r: seq<int>)
    ensures forall x :: x in r <==> exists i :: 0 <= i < |appliances| && appliances[i].lastSeen == Some(x)
  {
    if appliances == [] then []
    else
      var rest := Timestamps(appliances[1..]);
      assert forall i :: 1 <= i < |appliances| ==> appliances[i] == appliances[1..][i - 1];
      var t := appliances[0].lastSeen;
      (if t.Some? then [t.value] else []) + rest
  }

  /** LINQ Min: the least element of a non-empty list. */
  function Min(xs: seq<int>): (r: int)
    requires |xs| > 0
    ensures r in xs && forall x :: x in xs ==> r <= x
  {
    if |xs| == 1 then xs[0]
    else
      var m := Min(xs[1..]);
      assert forall x :: x in xs ==> x == xs[0] || x in xs[1..];
      if xs[0] <= m then xs[0] else m
  }

  /** The least of the values, or null when there are none. */
  function Lowest(xs: seq<int>): (r: Option<int>)
    ensures r.Some? <==> |xs| > 0
    ensures r.Some? ==> r.value in xs && forall x :: x in xs ==> r.value <= x
  {
    if |xs| != 0 then Some(Min(xs)) else None
  }

  /**
   * The combined state over the battery levels and last-seen times that are present: the least
   * of each; a battery warning raised exactly when some level is below the one asked for; a
   * last-seen warning raised exactly when some time is before the offline period began. The
   * comparison with that period is short-circuited when there are no times, so only then does
   * an out-of-range period not throw.
   */
  function Combine(levels: seq<int>, timestamps: seq<int>, batteryWarningLevel: Option<int>,
    seenOffsetWarningHours: Option<int>, now: int): (r: Result<DeviceStateCombined>)
    ensures r.Err? <==> seenOffsetWarningHours.Some? && |timestamps| > 0 && SeenBefore(now, seenOffsetWarningHours.value).Err?
    ensures r.Ok? ==> r.value.lowestBatteryLevel == Lowest(levels) && r.value.lowestLastSeen == Lowest(timestamps)
    ensures r.Ok? ==> (r.value.batteryWarning.None? <==> batteryWarningLevel.None?)
    ensures r.Ok? && batteryWarningLevel.Some? ==>
      (r.value.batteryWarning == Some(true) <==> exists x :: x in levels && x < batteryWarningLevel.value)
    ensures r.Ok? ==> (r.value.lastSeenWarning.None? <==> seenOffsetWarningHours.None?)
    ensures r.Ok? && seenOffsetWarningHours.Some? ==>
      (r.value.lastSeenWarning == Some(true) <==>
         exists t :: t in timestamps && t < now - seenOffsetWarningHours.value * 3600)
  {
    var batteryWarning :=
      if batteryWarningLevel.Some? then Some(|levels| != 0 && Min(levels) < batteryWarningLevel.value) else None;
    if seenOffsetWarningHours.None? then
      Ok(DeviceStateCombined(Lowest(levels), Lowest(timestamps), batteryWarning, None))
    else if |timestamps| == 0 then
      Ok(DeviceStateCombined(Lowest(levels), None, batteryWarning, Some(false)))
    else
      match SeenBefore(now, seenOffsetWarningHours.value)
      case Err(e) => Err(e)
      case Ok(threshold) =>
        Ok(DeviceStateCombined(Lowest(levels), Lowest(timestamps), batteryWarning, Some(Min(timestamps) < threshold)))
  }

  /** GetCombinedMaintenanceState: 404 on an empty selection, else the combined state. */
  function GetCombinedMaintenanceState(selected: Result<Dict<string, Appliance>>, batteryWarningLevel: Option<int>,
    seenOffsetWarningHours: Option<int>, now: int): (r: Result<Reply<DeviceStateCombined>>)
    ensures selected.Ok? && r.Ok? ==> (r.value.NotFound? <==> |selected.value| == 0)
  {
    if selected.Err? then Err(selected.error)
    else if |selected.value| == 0 then Ok(NotFound(None))
    else
      var values := Values(selected.value);
      match Combine(BatteryLevels(values), Timestamps(values), batteryWarningLevel, seenOffsetWarningHours, now)
      case Err(e) => Err(e)
      case Ok(c) => Ok(Success(c))
  }

  /** The "battery" status entry of the i-th selected appliance. */
  function Battery(appliances: Dict<string, Appliance>, i: int): Option<int>
    requires 0 <= i < |appliances|
  {
    Get(appliances[i].1.status, "battery")
  }

  /**
   * The battery half of the combined state, per appliance: the lowest level is the level of a
   * selected appliance and no higher than any, null when none reports one; the warning is
   * raised exactly when some appliance is below the level asked for.
   */
  lemma CombinedBatterySpec(appliances: Dict<string, Appliance>, batteryWarningLevel: Option<int>,
    seenOffsetWarningHours: Option<int>, now: int)
    ensures var r := GetCombinedMaintenanceState(Ok(appliances), batteryWarningLevel, seenOffsetWarningHours, now);
      r.Ok? && |appliances| > 0 ==>
        var c := r.value.body;
        && (c.lowestBatteryLevel.Some? <==> exists i :: 0 <= i < |appliances| && Battery(appliances, i).Some?)
        && (c.lowestBatteryLevel.Some? ==>
              (exists i :: 0 <= i < |appliances| && Battery(appliances, i) == c.lowestBatteryLevel)
              && forall i :: 0 <= i < |appliances| && Battery(appliances, i).Some? ==>
                   c.lowestBatteryLevel.value <= Battery(appliances, i).value)
        && (batteryWarningLevel.Some? ==>
              (c.batteryWarning == Some(true) <==>
                 exists i :: 0 <= i < |appliances| && Battery(appliances, i).Some?
                             && Battery(appliances, i).value < batteryWarningLevel.value))
  {
    var values := Values(appliances);
    var levels := BatteryLevels(values);
    assert forall i :: 0 <= i < |appliances| ==> Battery(appliances, i) == Get(values[i].status, "battery");
    forall i | 0 <= i < |appliances| && Battery(appliances, i).Some?
      ensures Battery(appliances, i).value in levels
    {
      assert Get(values[i].status, "battery") == Some(Battery(appliances, i).value);
    }
  }

  /**
   * The last-seen half of the combined state, per appliance: the earliest time is that of a
   * selected appliance and no later than any, null when none was seen; the warning is raised
   * exactly when some appliance was last seen before the offline period began. The action
   * throws only when a warning is asked for, some appliance was seen, and the period starts
   * outside the DateTime range.
   */
  lemma CombinedLastSeenSpec(appliances: Dict<string, Appliance>, batteryWarningLevel: Option<int>,
    seenOffsetWarningHours: Option<int>, now: int)
    ensures var r := GetCombinedMaintenanceState(Ok(appliances), batteryWarningLevel, seenOffsetWarningHours, now);
      && (r.Err? <==> |appliances| > 0 && seenOffsetWarningHours.Some?
                      && (exists i :: 0 <= i < |appliances| && appliances[i].1.lastSeen.Some?)
                      && SeenBefore(now, seenOffsetWarningHours.value).Err?)
      && (r.Ok? && |appliances| > 0 ==>
            var c := r.value.body;
            && (c.lowestLastSeen.Some? <==> exists i :: 0 <= i < |appliances| && appliances[i].1.lastSeen.Some?)
            && (c.lowestLastSeen.Some? ==>
                  (exists i :: 0 <= i < |appliances| && appliances[i].1.lastSeen == c.lowestLastSeen)
                  && forall i :: 0 <= i < |appliances| && appliances[i].1.lastSeen.Some? ==>
                       c.lowestLastSeen.value <= appliances[i].1.lastSeen.value)
            && (seenOffsetWarningHours.Some? ==>
                  (c.lastSeenWarning == Some(true) <==>
                     exists i :: 0 <= i < |appliances| && appliances[i].1.lastSeen.Some?
                                 && appliances[i].1.lastSeen.value < now - seenOffsetWarningHours.value * 3600)))
  {
    var values := Values(appliances);
    var timestamps := Timestamps(values);
    assert forall i :: 0 <= i < |appliances| ==> values[i] == appliances[i].1;
    forall i | 0 <= i < |appliances| && appliances[i].1.lastSeen.Some?
      ensures appliances[i].1.lastSeen.value in timestamps
    {
      assert values[i].lastSeen == Some(appliances[i].1.lastSeen.value);
    }
    if |timestamps| > 0 {
      assert timestamps[0] in timestamps;
    }
  }
}
