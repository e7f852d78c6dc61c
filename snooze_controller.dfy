/**
 * Controllers/SnoozeController.cs: the snooze state of the SenseGuard valves and the PUT that
 * snoozes (minutes >= 1) or wakes (minutes = 0) them. The controller sees the ApiClient through
 * its answers: `selected` is what GetAppliances<SenseGuardAppliance> returned, and
 * `snoozeGuard`/`wakeGuard` are what SnoozeGuard/WakeGuard return for a valve id. `now` is the
 * UTC clock in seconds.
 */
module SnoozeControl {
  import opened Wrappers
  import opened Dictionaries
  import opened ApplianceGraph
  import opened Replies
  import opened Foreach

  datatype SnoozeState = SnoozeState(id: string, snoozing: bool, snoozeUntil: Option<int>, snoozeSeconds: int)

  /** The calls the controller makes on the ApiClient. */
  datatype GuardCall = SnoozeCall(id: string, minutes: int) | WakeCall(id: string)

  /** What the PUT reports for one valve, and whether the valve counts as failed. */
  datatype Outcome = Outcome(state: SnoozeState, failed: bool)

  /**
   * A reported state that agrees with itself: an end time exactly when snoozing, the seconds
   * left until it, and no seconds otherwise.
   */
  predicate Coherent(s: SnoozeState, now: int) {
    s.snoozeSeconds >= 0
    && (s.snoozeUntil.Some? <==> s.snoozing)
    && (s.snoozing ==> s.snoozeUntil == Some(now + s.snoozeSeconds))
    && (!s.snoozing ==> s.snoozeSeconds == 0)
  }

  function Max(a: int, b: int): int {
    if a >= b then a else b
  }

  /**
   * GetApiModel: snoozing iff SnoozedUntil is later than now (a null SnoozedUntil compares
   * false); the seconds left, floored at zero, and the end time only while snoozing.
   */
  function GetApiModel(valve: Appliance, now: int): (r: SnoozeState)
    ensures r.id == valve.id
    ensures r.snoozing <==> valve.snoozedUntil.Some? && valve.snoozedUntil.value > now
    ensures r.snoozing ==> r.snoozeUntil == valve.snoozedUntil
    ensures Coherent(r, now)
  {
    var snoozing := valve.snoozedUntil.Some? && valve.snoozedUntil.value > now;
    SnoozeState(
      valve.id,
      snoozing,
      if snoozing then valve.snoozedUntil else None,
      if snoozing then Max(valve.snoozedUntil.value - now, 0) else 0)
  }

  /** The switch on minutes for one valve: the guard call it selects and the state reported after it. */
  function Apply(valve: Appliance, minutes: int, now: int,
    snoozeGuard: (string, int) -> Result<bool>, wakeGuard: string -> Result<bool>): (r: Result<Outcome>)
    ensures r.Err? ==> (minutes >= 1 && snoozeGuard(valve.id, minutes).Err?) || (minutes == 0 && wakeGuard(valve.id).Err?)
    ensures r.Ok? ==> r.value.state.id == valve.id && Coherent(r.value.state, now)
    ensures r.Ok? && r.value.failed ==> r.value.state == GetApiModel(valve, now)
    ensures r.Ok? ==> (r.value.failed <==>
      minutes < 0 || (minutes >= 1 && snoozeGuard(valve.id, minutes) == Ok(false)) || (minutes == 0 && wakeGuard(valve.id) == Ok(false)))
    ensures r.Ok? && !r.value.failed && minutes >= 1 ==>
      r.value.state.snoozing && r.value.state.snoozeSeconds == minutes * 60 && r.value.state.snoozeUntil == Some(now + minutes * 60)
    ensures r.Ok? && !r.value.failed && minutes == 0 ==>
      !r.value.state.snoozing && r.value.state.snoozeSeconds == 0 && r.value.state.snoozeUntil.None?
  {
    var state := GetApiModel(valve, now);
    if minutes >= 1 then
      match snoozeGuard(valve.id, minutes)
      case Err(e) => Err(e)
      case Ok(true) => Ok(Outcome(state.(snoozing := true, snoozeSeconds := minutes * 60, snoozeUntil := Some(now + minutes * 60)), false))
      case Ok(false) => Ok(Outcome(state, true))
    else if minutes == 0 then
      match wakeGuard(valve.id)
      case Err(e) => Err(e)
      case Ok(true) => Ok(Outcome(state.(snoozing := false, snoozeSeconds := 0, snoozeUntil := None), false))
      case Ok(false) => Ok(Outcome(state, true))
    else Ok(Outcome(state, true))
  }

  function Body(minutes: int, now: int, snoozeGuard: (string, int) -> Result<bool>, wakeGuard: string -> Result<bool>)
    : Appliance -> Result<Outcome>
  {
    (valve: Appliance) => Apply(valve, minutes, now, snoozeGuard, wakeGuard)
  }

  /** The guard call the switch makes for one valve: SnoozeGuard, WakeGuard or none. */
  function CallsOf(minutes: int): Appliance -> seq<GuardCall> {
    (valve: Appliance) => if minutes >= 1 then [SnoozeCall(valve.id, minutes)] else if minutes == 0 then [WakeCall(valve.id)] else []
  }

  function States(os: seq<Outcome>): (r: seq<SnoozeState>)
    ensures |r| == |os| && forall i :: 0 <= i < |os| ==> r[i] == os[i].state
  {
    seq(|os|, i requires 0 <= i < |os| => os[i].state)
  }

  predicate AnyFailed(os: seq<Outcome>) {
    exists i :: 0 <= i < |os| && os[i].failed
  }

  /** One more outcome adds its state to the results and its failure to the flag. */
  lemma Appended(os: seq<Outcome>, o: Outcome)
    ensures States(os + [o]) == States(os) + [o.state]
    ensures AnyFailed(os + [o]) <==> AnyFailed(os) || o.failed
  {
    assert (os + [o])[|os|] == o;
    assert forall i :: 0 <= i < |os| ==> (os + [o])[i] == os[i];
  }

  /** SetSnoozeState: 404 on an empty selection, else one state per valve, 207 if any valve failed. */
  function SetSnoozeReply(minutes: int, selected: Result<Dict<string, Appliance>>, now: int,
    snoozeGuard: (string, int) -> Result<bool>, wakeGuard: string -> Result<bool>): Result<Reply<seq<SnoozeState>>>
  {
    if selected.Err? then Err(selected.error)
    else if |selected.value| == 0 then Ok(NotFound(Some("No valves found")))
    else
      match Run(Values(selected.value), Body(minutes, now, snoozeGuard, wakeGuard))
      case Err(e) => Err(e)
      case Ok(os) => Ok(if AnyFailed(os) then MultiStatus(States(os)) else Success(States(os)))
  }

  /** The guard calls SetSnoozeState makes, up to the first that throws. */
  function SetSnoozeCalls(minutes: int, selected: Result<Dict<string, Appliance>>, now: int,
    snoozeGuard: (string, int) -> Result<bool>, wakeGuard: string -> Result<bool>): seq<GuardCall>
  {
    if selected.Err? || |selected.value| == 0 then []
    else Calls(Values(selected.value), Body(minutes, now, snoozeGuard, wakeGuard), CallsOf(minutes))
  }

  /**
   * The foreach of SetSnoozeState. The C# adds each state to the results before the guard call
   * and mutates it afterwards; appending the final state is the same list.
   */
  method SetSnoozeState(minutes: int, selected: Result<Dict<string, Appliance>>, now: int,
    snoozeGuard: (string, int) -> Result<bool>, wakeGuard: string -> Result<bool>)
    returns (r: Result<Reply<seq<SnoozeState>>>, calls: seq<GuardCall>)
    ensures r == SetSnoozeReply(minutes, selected, now, snoozeGuard, wakeGuard)
    ensures calls == SetSnoozeCalls(minutes, selected, now, snoozeGuard, wakeGuard)
  {
    calls := [];
    if selected.Err? {
      return Err(selected.error), calls;
    }
    var appliances := selected.value;
    if |appliances| == 0 {
      return Ok(NotFound(Some("No valves found"))), calls;
    }
    var valves := Values(appliances);
    ghost var body := Body(minutes, now, snoozeGuard, wakeGuard);
    ghost var outcomes: seq<Outcome> := [];
    var someSnoozeFailed := false;
    var results: seq<SnoozeState> := [];
    var i := 0;
    while i < |valves|
      invariant 0 <= i <= |valves|
      invariant Run(valves[..i], body) == Ok(outcomes)
      invariant results == States(outcomes)
      invariant someSnoozeFailed <==> AnyFailed(outcomes)
      invariant calls == Calls(valves[..i], body, CallsOf(minutes))
    {
      RunStep(valves, i, body, CallsOf(minutes));
      var outcome, made := SwitchValve(valves[i], minutes, now, snoozeGuard, wakeGuard);
      calls := calls + made;
      if outcome.Err? {
        RunStopped(valves, i + 1, body, CallsOf(minutes));
        return Err(outcome.error), calls;
      }
      Appended(outcomes, outcome.value);
      someSnoozeFailed := someSnoozeFailed || outcome.value.failed;
      results := results + [outcome.value.state];
      outcomes := outcomes + [outcome.value];
      i := i + 1;
    }
    Whole(valves);
    r := Ok(if someSnoozeFailed then MultiStatus(results) else Success(results));
  }

  /** The body of the foreach for one valve: the switch on minutes. */
  method SwitchValve(valve: Appliance, minutes: int, now: int,
    snoozeGuard: (string, int) -> Result<bool>, wakeGuard: string -> Result<bool>)
    returns (r: Result<Outcome>, calls: seq<GuardCall>)
    ensures r == Apply(valve, minutes, now, snoozeGuard, wakeGuard)
    ensures calls == CallsOf(minutes)(valve)
  {
    var state := GetApiModel(valve, now);
    calls := [];
    if minutes >= 1 {
      calls := [SnoozeCall(valve.id, minutes)];
      var snoozed := snoozeGuard(valve.id, minutes);
      if snoozed.Err? {
        return Err(snoozed.error), calls;
      }
      if snoozed.value {
        state := state.(snoozing := true, snoozeSeconds := minutes * 60, snoozeUntil := Some(now + minutes * 60));
        return Ok(Outcome(state, false)), calls;
      }
    } else if minutes == 0 {
      calls := [WakeCall(valve.id)];
      var woken := wakeGuard(valve.id);
      if woken.Err? {
        return Err(woken.error), calls;
      }
      if woken.value {
        state := state.(snoozing := false, snoozeSeconds := 0, snoozeUntil := None);
        return Ok(Outcome(state, false)), calls;
      }
    }
    r := Ok(Outcome(state, true));
  }

  /**
   * The PUT's answer: 404 exactly on an empty selection; otherwise one coherent state per valve,
   * in order, and 207 exactly when some valve failed; an exception exactly when a guard call threw.
   */
  lemma SetSnoozeStateSpec(minutes: int, appliances: Dict<string, Appliance>, now: int,
    snoozeGuard: (string, int) -> Result<bool>, wakeGuard: string -> Result<bool>)
    ensures var r := SetSnoozeReply(minutes, Ok(appliances), now, snoozeGuard, wakeGuard);
      var valves := Values(appliances);
      && (r.Err? <==> exists i :: 0 <= i < |valves| && Apply(valves[i], minutes, now, snoozeGuard, wakeGuard).Err?)
      && (r.Ok? ==> (r.value.NotFound? <==> |appliances| == 0))
      && (r.Ok? && |appliances| > 0 ==>
           (r.value.Success? || r.value.MultiStatus?) && |r.value.body| == |valves|
           && (forall i :: 0 <= i < |valves| ==>
                 Ok(Outcome(r.value.body[i], Apply(valves[i], minutes, now, snoozeGuard, wakeGuard).value.failed))
                 == Apply(valves[i], minutes, now, snoozeGuard, wakeGuard)
                 && Coherent(r.value.body[i], now))
           && (r.value.MultiStatus? <==>
                 exists i :: 0 <= i < |valves| && Apply(valves[i], minutes, now, snoozeGuard, wakeGuard).value.failed))
  {
    var valves := Values(appliances);
    var body := Body(minutes, now, snoozeGuard, wakeGuard);
    assert forall i :: 0 <= i < |valves| ==> body(valves[i]) == Apply(valves[i], minutes, now, snoozeGuard, wakeGuard);
  }

  /**
   * Dispatch by minutes: at least one minute calls only SnoozeGuard, zero only WakeGuard, and
   * only for selected valves; negative minutes call neither.
   */
  lemma SetSnoozeDispatch(minutes: int, appliances: Dict<string, Appliance>, now: int,
    snoozeGuard: (string, int) -> Result<bool>, wakeGuard: string -> Result<bool>, c: GuardCall)
    ensures var calls := SetSnoozeCalls(minutes, Ok(appliances), now, snoozeGuard, wakeGuard);
      && (c in calls && minutes >= 1 ==> c.SnoozeCall? && c.minutes == minutes && c.id in Ids(appliances))
      && (c in calls && minutes == 0 ==> c.WakeCall? && c.id in Ids(appliances))
      && (minutes < 0 ==> calls == [])
  {
    var valves := Values(appliances);
    var body := Body(minutes, now, snoozeGuard, wakeGuard);
    var callsOf := CallsOf(minutes);
    if |appliances| > 0 {
      if c in Calls(valves, body, callsOf) {
        CallsFrom(valves, body, callsOf, c);
        var i :| 0 <= i < |valves| && c in callsOf(valves[i]);
        assert Ids(appliances)[i] == valves[i].id;
      }
      if minutes < 0 {
        NoCalls(valves, body, callsOf);
      }
    }
  }

  /** When no guard call throws, every selected valve gets exactly one call, in order. */
  lemma SetSnoozeCallsInOrder(minutes: int, appliances: Dict<string, Appliance>, now: int,
    snoozeGuard: (string, int) -> Result<bool>, wakeGuard: string -> Result<bool>)
    requires minutes >= 0 && SetSnoozeReply(minutes, Ok(appliances), now, snoozeGuard, wakeGuard).Ok?
    ensures var calls := SetSnoozeCalls(minutes, Ok(appliances), now, snoozeGuard, wakeGuard);
      |calls| == |appliances| && forall i :: 0 <= i < |calls| ==> calls[i].id == appliances[i].1.id
  {
    var valves := Values(appliances);
    var body := Body(minutes, now, snoozeGuard, wakeGuard);
    var callsOf := CallsOf(minutes);
    if |appliances| > 0 {
      CallsWhenOk(valves, body, callsOf);
      ConcatSingletons(valves, callsOf);
    }
  }

  /** Negative minutes match no case: every valve fails and is reported as it was read. */
  lemma NegativeMinutesFail(minutes: int, appliances: Dict<string, Appliance>, now: int,
    snoozeGuard: (string, int) -> Result<bool>, wakeGuard: string -> Result<bool>)
    requires minutes < 0 && |appliances| > 0
    ensures SetSnoozeReply(minutes, Ok(appliances), now, snoozeGuard, wakeGuard)
      == Ok(MultiStatus(seq(|appliances|, i requires 0 <= i < |appliances| => GetApiModel(appliances[i].1, now))))
  {
    var valves := Values(appliances);
    var body := Body(minutes, now, snoozeGuard, wakeGuard);
    assert forall i :: 0 <= i < |valves| ==> body(valves[i]) == Ok(Outcome(GetApiModel(valves[i], now), true));
    var r := Run(valves, body);
    assert r.value[0].failed;
    assert States(r.value) == seq(|appliances|, i requires 0 <= i < |appliances| => GetApiModel(appliances[i].1, now));
  }

  /** The ids of the selected appliances, in order. */
  function Ids(appliances: Dict<string, Appliance>): (r: seq<string>)
    ensures |r| == |appliances| && forall i :: 0 <= i < |appliances| ==> r[i] == appliances[i].1.id
  {
    seq(|appliances|, i requires 0 <= i < |appliances| => appliances[i].1.id)
  }

  /** An element whose calls are empty adds none. */
  lemma {:induction false} NoCalls<T, O, C>(xs: seq<T>, body: T -> Result<O>, callsOf: T -> seq<C>)
    requires forall i :: 0 <= i < |xs| ==> callsOf(xs[i]) == []
    ensures Calls(xs, body, callsOf) == []
    decreases |xs|
  {
    if xs != [] {
      var init := xs[..|xs| - 1];
      assert forall i :: 0 <= i < |init| ==> init[i] == xs[i];
      NoCalls(init, body, callsOf);
    }
  }

  /** GetSnoozeState: 404 on an empty selection, else the state of every valve, in order. */
  function GetSnoozeState(selected: Result<Dict<string, Appliance>>, now: int): (r: Result<Reply<seq<SnoozeState>>>)
    ensures r.Ok? <==> selected.Ok?
    ensures r.Ok? ==> (r.value.NotFound? <==> |selected.value| == 0) && (r.value.Success? <==> |selected.value| > 0)
    ensures r.Ok? && r.value.Success? ==>
      |r.value.body| == |selected.value|
      && forall i :: 0 <= i < |selected.value| ==>
           r.value.body[i].id == selected.value[i].1.id && Coherent(r.value.body[i], now)
  {
    if selected.Err? then Err(selected.error)
    else if |selected.value| == 0 then Ok(NotFound(None))
    else
      var valves := Values(selected.value);
      Ok(Success(seq(|valves|, i requires 0 <= i < |valves| => GetApiModel(valves[i], now))))
  }

  /** GetSingleSnoozeState: 404 for no valve, 400 for more than one, else that valve's state. */
  function GetSingleSnoozeState(selected: Result<Dict<string, Appliance>>, now: int): (r: Result<Reply<SnoozeState>>)
    ensures r.Ok? <==> selected.Ok?
    ensures r.Ok? ==>
      (StatusCode(r.value) == 404 <==> |selected.value| == 0)
      && (StatusCode(r.value) == 400 <==> |selected.value| > 1)
      && (r.value.Success? <==> |selected.value| == 1)
    ensures r.Ok? && r.value.Success? ==> r.value.body == GetApiModel(selected.value[0].1, now)
  {
    if selected.Err? then Err(selected.error)
    else
      var n := |selected.value|;
      if n == 0 then Ok(NotFound(Some("No valve found")))
      else if n == 1 then Ok(Success(GetApiModel(Values(selected.value)[0], now)))
      else Ok(BadRequest("More than one valve found"))
  }

  /** SetSingleSnoozeState: the same switch on the one valve; a failed set is 503. */
  function SetSingleSnoozeState(minutes: int, selected: Result<Dict<string, Appliance>>, now: int,
    snoozeGuard: (string, int) -> Result<bool>, wakeGuard: string -> Result<bool>): (r: Result<Reply<SnoozeState>>)
    ensures selected.Err? ==> r.Err?
    ensures r.Ok? ==>
      (StatusCode(r.value) == 404 <==> |selected.value| == 0)
      && (StatusCode(r.value) == 400 <==> |selected.value| > 1)
    ensures selected.Ok? && |selected.value| == 1 ==>
      var a := Apply(selected.value[0].1, minutes, now, snoozeGuard, wakeGuard);
      && (r.Err? <==> a.Err?)
      && (r.Ok? ==> (StatusCode(r.value) == 503 <==> a.value.failed))
      && (r.Ok? && !a.value.failed ==> r.value == Success(a.value.state))
  {
    if selected.Err? then Err(selected.error)
    else
      var n := |selected.value|;
      if n == 0 then Ok(NotFound(Some("No valve found")))
      else if n > 1 then Ok(BadRequest("More than one valve found"))
      else
        match Apply(Values(selected.value)[0], minutes, now, snoozeGuard, wakeGuard)
        case Err(e) => Err(e)
        case Ok(o) => Ok(if o.failed then Unavailable("Failed to set snooze state") else Success(o.state))
  }
}
