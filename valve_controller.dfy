/**
 * Controllers/ValveController.cs: the open/closed state of the SenseGuard valves and the PUT that
 * opens or closes them. The controller sees the ApiClient through its answers: `selected` is what
 * GetAppliances<SenseGuardAppliance> returned, `valveOpen` what GetValveOpen returns for a valve
 * id and `setValveOpen` what SetValveOpen returns for an id and a requested state.
 */
module ValveControl {
  import opened Wrappers
  import opened Dictionaries
  import opened ApplianceGraph
  import opened Replies
  import opened Foreach

  datatype ValveState = ValveState(id: string, open: bool)

  /** The calls the controller makes on the ApiClient. */
  datatype ValveCall = ReadCall(id: string) | SetCall(id: string, open: bool)

  /** What the PUT reports for one valve, and whether setting it failed. */
  datatype Outcome = Outcome(state: ValveState, failed: bool)

  /** One valve of GetValveState: its id and what GetValveOpen says. */
  function Read(valve: Appliance, valveOpen: string -> Result<bool>): (r: Result<ValveState>)
    ensures r.Err? <==> valveOpen(valve.id).Err?
    ensures r.Ok? ==> r.value == ValveState(valve.id, valveOpen(valve.id).value)
  {
    match valveOpen(valve.id)
    case Err(e) => Err(e)
    case Ok(b) => Ok(ValveState(valve.id, b))
  }

  function ReadBody(valveOpen: string -> Result<bool>): Appliance -> Result<ValveState> {
    (valve: Appliance) => Read(valve, valveOpen)
  }

  /** GetValveState: 404 on an empty selection, else the state of every valve, in order. */
  function GetValveReply(selected: Result<Dict<string, Appliance>>, valveOpen: string -> Result<bool>)
    : Result<Reply<seq<ValveState>>>
  {
    if selected.Err? then Err(selected.error)
    else if |selected.value| == 0 then Ok(NotFound(None))
    else
      match Run(Values(selected.value), ReadBody(valveOpen))
      case Err(e) => Err(e)
      case Ok(states) => Ok(Success(states))
  }

  /** The foreach of GetValveState. */
  method GetValveState(selected: Result<Dict<string, Appliance>>, valveOpen: string -> Result<bool>)
    returns (r: Result<Reply<seq<ValveState>>>)
    ensures r == GetValveReply(selected, valveOpen)
  {
    if selected.Err? {
      return Err(selected.error);
    }
    if |selected.value| == 0 {
      return Ok(NotFound(None));
    }
    var valves := Values(selected.value);
    ghost var body := ReadBody(valveOpen);
    ghost var noCalls: Appliance -> seq<ValveCall> := (valve: Appliance) => [];
    var results: seq<ValveState> := [];
    var i := 0;
    while i < |valves|
      invariant 0 <= i <= |valves|
      invariant Run(valves[..i], body) == Ok(results)
    {
      RunStep(valves, i, body, noCalls);
      var open := valveOpen(valves[i].id);
      if open.Err? {
        RunStopped(valves, i + 1, body, noCalls);
        return Err(open.error);
      }
      results := results + [ValveState(valves[i].id, open.value)];
      i := i + 1;
    }
    Whole(valves);
    r := Ok(Success(results));
  }

  /** GetValveState reports every selected valve, in order, with the state GetValveOpen gave it. */
  lemma GetValveStateSpec(appliances: Dict<string, Appliance>, valveOpen: string -> Result<bool>)
    ensures var r := GetValveReply(Ok(appliances), valveOpen);
      && (r.Err? <==> exists i :: 0 <= i < |appliances| && valveOpen(appliances[i].1.id).Err?)
      && (r.Ok? ==> (r.value.NotFound? <==> |appliances| == 0))
      && (r.Ok? && |appliances| > 0 ==>
            r.value.Success? && |r.value.body| == |appliances|
            && forall i :: 0 <= i < |appliances| ==>
                 r.value.body[i] == ValveState(appliances[i].1.id, valveOpen(appliances[i].1.id).value))
  {
    var valves := Values(appliances);
    var body := ReadBody(valveOpen);
    assert forall i :: 0 <= i < |valves| ==>
      valves[i] == appliances[i].1 && body(valves[i]) == Read(appliances[i].1, valveOpen);
  }

  /**
   * One valve of SetValveState: the state is read first; a valve already in the requested state
   * is left alone; otherwise SetValveOpen decides whether the reported state becomes the
   * requested one or the valve counts as failed.
   */
  function Apply(valve: Appliance, open: bool, valveOpen: string -> Result<bool>,
    setValveOpen: (string, bool) -> Result<bool>): (r: Result<Outcome>)
    ensures r.Err? <==>
      valveOpen(valve.id).Err? || (valveOpen(valve.id).value != open && setValveOpen(valve.id, open).Err?)
    ensures r.Ok? ==> r.value.state.id == valve.id
    ensures r.Ok? ==> (r.value.failed <==> valveOpen(valve.id).value != open && setValveOpen(valve.id, open) == Ok(false))
    ensures r.Ok? ==> (r.value.state.open == if r.value.failed then valveOpen(valve.id).value else open)
  {
    match valveOpen(valve.id)
    case Err(e) => Err(e)
    case Ok(current) =>
      if current == open then Ok(Outcome(ValveState(valve.id, current), false))
      else
        match setValveOpen(valve.id, open)
        case Err(e) => Err(e)
        case Ok(true) => Ok(Outcome(ValveState(valve.id, open), false))
        case Ok(false) => Ok(Outcome(ValveState(valve.id, current), true))
  }

  function Body(open: bool, valveOpen: string -> Result<bool>, setValveOpen: (string, bool) -> Result<bool>)
    : Appliance -> Result<Outcome>
  {
    (valve: Appliance) => Apply(valve, open, valveOpen, setValveOpen)
  }

  /** The calls for one valve: always a read, and a set only when the read differs from the request. */
  function CallsOf(open: bool, valveOpen: string -> Result<bool>): Appliance -> seq<ValveCall> {
    (valve: Appliance) =>
      var current := valveOpen(valve.id);
      [ReadCall(valve.id)] + if current.Ok? && current.value != open then [SetCall(valve.id, open)] else []
  }

  function States(os: seq<Outcome>): (r: seq<ValveState>)
    ensures |r| == |os| && forall i :: 0 <= i < |os| ==> r[i] == os[i].state
  {
    seq(|os|, i requires 0 <= i < |os| => os[i].state)
  }

  predicate AnyFailed(os: seq<Outcome>) {
    exists i :: 0 <= i < |os| && os[i].failed
  }

  /** One more outcome adds its state to the results and its failure to the flag. */
  lemma Appended(os: seq<Outcome>, o: Outcome)
    ensures States(os + [o]) == States(os) + [o.state]
    ensures AnyFailed(os + [o]) <==> AnyFailed(os) || o.failed
  {
    assert (os + [o])[|os|] == o;
    assert forall i :: 0 <= i < |os| ==> (os + [o])[i] == os[i];
  }

  /** SetValveState: 404 on an empty selection, else one state per valve, 207 if any valve failed. */
  function SetValveReply(open: bool, selected: Result<Dict<string, Appliance>>, valveOpen: string -> Result<bool>,
    setValveOpen: (string, bool) -> Result<bool>): Result<Reply<seq<ValveState>>>
  {
    if selected.Err? then Err(selected.error)
    else if |selected.value| == 0 then Ok(NotFound(Some("No valves found")))
    else
      match Run(Values(selected.value), Body(open, valveOpen, setValveOpen))
      case Err(e) => Err(e)
      case Ok(os) => Ok(if AnyFailed(os) then MultiStatus(States(os)) else Success(States(os)))
  }

  /** The calls SetValveState makes, up to the first that throws. */
  function SetValveCalls(open: bool, selected: Result<Dict<string, Appliance>>, valveOpen: string -> Result<bool>,
    setValveOpen: (string, bool) -> Result<bool>): seq<ValveCall>
  {
    if selected.Err? || |selected.value| == 0 then []
    else Calls(Values(selected.value), Body(open, valveOpen, setValveOpen), CallsOf(open, valveOpen))
  }

  /**
   * The foreach of SetValveState. The C# adds each state to the results before the set call and
   * mutates it afterwards; appending the final state is the same list.
   */
  method SetValveState(open: bool, selected: Result<Dict<string, Appliance>>, valveOpen: string -> Result<bool>,
    setValveOpen: (string, bool) -> Result<bool>)
    returns (r: Result<Reply<seq<ValveState>>>, calls: seq<ValveCall>)
    ensures r == SetValveReply(open, selected, valveOpen, setValveOpen)
    ensures calls == SetValveCalls(open, selected, valveOpen, setValveOpen)
  {
    calls := [];
    if selected.Err? {
      return Err(selected.error), calls;
    }
    var appliances := selected.value;
    if |appliances| == 0 {
      return Ok(NotFound(Some("No valves found"))), calls;
    }
    var valves := Values(appliances);
    ghost var body := Body(open, valveOpen, setValveOpen);
    ghost var outcomes: seq<Outcome> := [];
    var someValvesFailed := false;
    var results: seq<ValveState> := [];
    var i := 0;
    while i < |valves|
      invariant 0 <= i <= |valves|
      invariant Run(valves[..i], body) == Ok(outcomes)
      invariant results == States(outcomes)
      invariant someValvesFailed <==> AnyFailed(outcomes)
      invariant calls == Calls(valves[..i], body, CallsOf(open, valveOpen))
    {
      RunStep(valves, i, body, CallsOf(open, valveOpen));
      var outcome, made := SwitchValve(valves[i], open, valveOpen, setValveOpen);
      calls := calls + made;
      if outcome.Err? {
        RunStopped(valves, i + 1, body, CallsOf(open, valveOpen));
        return Err(outcome.error), calls;
      }
      Appended(outcomes, outcome.value);
      someValvesFailed := someValvesFailed || outcome.value.failed;
      results := results + [outcome.value.state];
      outcomes := outcomes + [outcome.value];
      i := i + 1;
    }
    Whole(valves);
    r := Ok(if someValvesFailed then MultiStatus(results) else Success(results));
  }

  /** The body of the foreach for one valve. */
  method SwitchValve(valve: Appliance, open: bool, valveOpen: string -> Result<bool>,
    setValveOpen: (string, bool) -> Result<bool>)
    returns (r: Result<Outcome>, calls: seq<ValveCall>)
    ensures r == Apply(valve, open, valveOpen, setValveOpen)
    ensures calls == CallsOf(open, valveOpen)(valve)
  {
    calls := [ReadCall(valve.id)];
    var current := valveOpen(valve.id);
    if current.Err? {
      return Err(current.error), calls;
    }
    var state := ValveState(valve.id, current.value);
    if state.open == open {
      return Ok(Outcome(state, false)), calls;
    }
    calls := calls + [SetCall(valve.id, open)];
    var accepted := setValveOpen(valve.id, open);
    if accepted.Err? {
      return Err(accepted.error), calls;
    }
    if accepted.value {
      state := state.(open := open);
      return Ok(Outcome(state, false)), calls;
    }
    r := Ok(Outcome(state, true));
  }

  /**
   * The PUT's answer: 404 exactly on an empty selection; otherwise one state per valve, in order,
   * holding the requested state unless that valve's set failed, and 207 exactly when one did.
   */
  lemma SetValveStateSpec(open: bool, appliances: Dict<string, Appliance>, valveOpen: string -> Result<bool>,
    setValveOpen: (string, bool) -> Result<bool>)
    ensures var r := SetValveReply(open, Ok(appliances), valveOpen, setValveOpen);
      var valves := Values(appliances);
      && (r.Err? <==> exists i :: 0 <= i < |valves| && Apply(valves[i], open, valveOpen, setValveOpen).Err?)
      && (r.Ok? ==> (r.value.NotFound? <==> |appliances| == 0))
      && (r.Ok? && |appliances| > 0 ==>
           (r.value.Success? || r.value.MultiStatus?) && |r.value.body| == |valves|
           && (forall i :: 0 <= i < |valves| ==>
                 Ok(Outcome(r.value.body[i], Apply(valves[i], open, valveOpen, setValveOpen).value.failed))
                 == Apply(valves[i], open, valveOpen, setValveOpen))
           && (r.value.MultiStatus? <==>
                 exists i :: 0 <= i < |valves| && Apply(valves[i], open, valveOpen, setValveOpen).value.failed))
  {
    var valves := Values(appliances);
    var body := Body(open, valveOpen, setValveOpen);
    assert forall i :: 0 <= i < |valves| ==> body(valves[i]) == Apply(valves[i], open, valveOpen, setValveOpen);
  }

  /**
   * SetValveOpen is called only for a selected valve whose read state differs from the request,
   * and always with the requested state.
   */
  lemma SetOnlyWhenDifferent(open: bool, appliances: Dict<string, Appliance>, valveOpen: string -> Result<bool>,
    setValveOpen: (string, bool) -> Result<bool>, c: ValveCall)
    requires c in SetValveCalls(open, Ok(appliances), valveOpen, setValveOpen) && c.SetCall?
    ensures c.open == open && valveOpen(c.id) == Ok(!open)
    ensures exists i :: 0 <= i < |appliances| && appliances[i].1.id == c.id
  {
    var valves := Values(appliances);
    var body := Body(open, valveOpen, setValveOpen);
    var callsOf := CallsOf(open, valveOpen);
    CallsFrom(valves, body, callsOf, c);
    var i :| 0 <= i < |valves| && c in callsOf(valves[i]);
    assert appliances[i].1.id == c.id;
  }

  /** Every selected valve is read, in order, when no call throws. */
  lemma SetReadsEveryValve(open: bool, appliances: Dict<string, Appliance>, valveOpen: string -> Result<bool>,
    setValveOpen: (string, bool) -> Result<bool>, i: int)
    requires 0 <= i < |appliances| && SetValveReply(open, Ok(appliances), valveOpen, setValveOpen).Ok?
    ensures ReadCall(appliances[i].1.id) in SetValveCalls(open, Ok(appliances), valveOpen, setValveOpen)
  {
    var valves := Values(appliances);
    var body := Body(open, valveOpen, setValveOpen);
    var callsOf := CallsOf(open, valveOpen);
    CallsWhenOk(valves, body, callsOf);
    ConcatHas(valves, callsOf, i, ReadCall(valves[i].id));
  }

  /** The calls of any element are among the concatenated calls. */
  lemma {:induction false} ConcatHas<T, C>(xs: seq<T>, callsOf: T -> seq<C>, i: int, c: C)
    requires 0 <= i < |xs| && c in callsOf(xs[i])
    ensures c in Concat(xs, callsOf)
    decreases |xs|
  {
    var init := xs[..|xs| - 1];
    if i < |xs| - 1 {
      assert init[i] == xs[i];
      ConcatHas(init, callsOf, i, c);
    }
  }

  /** GetSingleValveState: 404 for no valve, 400 for more than one, else that valve's state. */
  function GetSingleValveState(selected: Result<Dict<string, Appliance>>, valveOpen: string -> Result<bool>)
    : (r: Result<Reply<ValveState>>)
    ensures selected.Err? ==> r.Err?
    ensures r.Ok? ==>
      (StatusCode(r.value) == 404 <==> |selected.value| == 0)
      && (StatusCode(r.value) == 400 <==> |selected.value| > 1)
    ensures selected.Ok? && |selected.value| == 1 ==>
      var id := selected.value[0].1.id;
      && (r.Err? <==> valveOpen(id).Err?)
      && (r.Ok? ==> r.value == Success(ValveState(id, valveOpen(id).value)))
  {
    if selected.Err? then Err(selected.error)
    else
      var n := |selected.value|;
      if n == 0 then Ok(NotFound(Some("No valve found")))
      else if n == 1 then
        var valve := Values(selected.value)[0];
        match valveOpen(valve.id)
        case Err(e) => Err(e)
        case Ok(b) => Ok(Success(ValveState(valve.id, b)))
      else Ok(BadRequest("More than one valve found"))
  }

  /**
   * SetSingleValveState: the set is made whatever the current state; its success reports the
   * requested state, its failure is 503.
   */
  function SetSingleValveState(open: bool, selected: Result<Dict<string, Appliance>>,
    setValveOpen: (string, bool) -> Result<bool>): (r: Result<Reply<ValveState>>)
    ensures selected.Err? ==> r.Err?
    ensures r.Ok? ==>
      (StatusCode(r.value) == 404 <==> |selected.value| == 0)
      && (StatusCode(r.value) == 400 <==> |selected.value| > 1)
    ensures selected.Ok? && |selected.value| == 1 ==>
      var id := selected.value[0].1.id;
      && (r.Err? <==> setValveOpen(id, open).Err?)
      && (r.Ok? ==> (StatusCode(r.value) == 503 <==> setValveOpen(id, open) == Ok(false)))
      && (r.Ok? && StatusCode(r.value) == 200 ==> r.value == Success(ValveState(id, open)))
  {
    if selected.Err? then Err(selected.error)
    else
      var n := |selected.value|;
      if n == 0 then Ok(NotFound(Some("No valve found")))
      else if n > 1 then Ok(BadRequest("More than one valve found"))
      else
        var valve := Values(selected.value)[0];
        match setValveOpen(valve.id, open)
        case Err(e) => Err(e)
        case Ok(true) => Ok(Success(ValveState(valve.id, open)))
        case Ok(false) => Ok(Unavailable("Failed to set valve state"))
  }
}
