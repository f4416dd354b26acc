/**
 * The device agent: one simulated factory device that reads its controller's
 * nodes over OPC UA, sends telemetry to the hub, keeps its reported twin in
 * step with what it observes, and answers direct methods and desired-property
 * changes from the hub.
 *
 * Every SDK call is a change to abstract state: the controller's nodes are a
 * map, the hub-side reported twin is a map that each reported-property update
 * patches, and everything the device sends out (events, reported-property
 * updates, controller method calls) is appended to a log in order.
 */
module VirtualDeviceModel {
  import opened Wrappers
  import opened Numerics
  import opened ErrorFlags

  /** The controller nodes the device reads and writes ("ns=2;s=Device <n>/<node>"). */
  datatype Node =
    | ProductionStatus | WorkorderId | GoodCount | BadCount | Temperature
    | DeviceError | ProductionRate

  /** The value of an OPC UA node, in the kinds the device meets. */
  datatype OpcValue = IntValue(i: Int32) | RealValue(r: real) | TextValue(s: string)

  /** A JSON value held in a twin property collection; `Day` is a calendar date. */
  datatype TwinValue = Num(n: int) | Text(s: string) | Day(day: int)

  type Properties = map<string, TwinValue>

  /** The telemetry message body. */
  datatype Telemetry = Telemetry(
    device: string,
    productionStatus: OpcValue,
    workorderId: OpcValue,
    goodCount: OpcValue,
    badCount: OpcValue,
    temperature: OpcValue)

  datatype Event =
    | TelemetryEvent(telemetry: Telemetry)
    | DeviceErrorsEvent(device: string, deviceErrors: string)

  /** What the device does to the outside world, in the order it does it. */
  datatype Effect =
    | SentEvent(event: Event)
    | ReportedUpdate(patch: Properties)
    | ControllerCall(methodName: string)

  const RateKey := "productionRate"
  const ErrorsKey := "deviceErrors"
  const ErrorsDateKey := "lastDeviceErrorsDate"

  // ---------------------------------------------------------------------------
  // Reading twin properties. Indexing a twin collection by a missing name
  // throws, and so does converting a number that does not fit an `int`.

  function ReadInt(props: Properties, key: string): (r: Option<Int32>)
    ensures r.Some? <==> key in props && props[key].Num? && MinInt32 <= props[key].n <= MaxInt32
    ensures r.Some? ==> props[key] == Num(r.value)
  {
    if key in props && props[key].Num? && MinInt32 <= props[key].n <= MaxInt32
    then Some(props[key].n) else None
  }

  function ReadText(props: Properties, key: string): (r: Option<string>)
    ensures r.Some? <==> key in props && props[key].Text?
    ensures r.Some? ==> props[key] == Text(r.value)
  {
    if key in props && props[key].Text? then Some(props[key].s) else None
  }

  // ---------------------------------------------------------------------------
  // Production rate arithmetic

  /** The rate written for a desired production rate `x`: `x` limited to [0, 100]. */
  function Clamp(x: int): (r: int)
    ensures 0 <= r <= 100
    ensures x <= 0 ==> r == 0
    ensures x >= 100 ==> r == 100
    ensures 0 <= x <= 100 ==> r == x
  {
    if x <= 0 then 0 else if x >= 100 then 100 else x
  }

  /** One step of ReduceProductionRate: 0 stays 0, anything else goes down by 10 in `int` arithmetic, with no floor. */
  function ReducedRate(rate: Int32): (r: Int32)
    ensures rate == 0 ==> r == 0
    ensures rate != 0 && rate - 10 >= MinInt32 ==> r == rate - 10
    ensures rate - 10 < MinInt32 ==> r == rate - 10 + 0x1_0000_0000
  {
    if rate == 0 then rate else Wrap32(rate - 10)
  }

  /** The rate does not stop at 0: 5 becomes -5, and 10 becomes 0 and then stays there. */
  lemma ReducedRateExamples()
    ensures ReducedRate(5) == -5
    ensures ReducedRate(10) == 0 && ReducedRate(ReducedRate(10)) == 0
    ensures ReducedRate(100) == 90
  {
  }

  // ---------------------------------------------------------------------------
  // Twin reconciliation

  /** The reported properties UpdateTwinAsync sends for an error string and a rate. */
  function ReportPatch(deviceError: string, rate: int, today: int): (p: Properties)
    ensures p.Keys == if deviceError == NoErrors then {RateKey, ErrorsKey} else {RateKey, ErrorsKey, ErrorsDateKey}
    ensures p[RateKey] == Num(rate) && p[ErrorsKey] == Text(deviceError)
    ensures ErrorsDateKey in p ==> p[ErrorsDateKey] == Day(today)
  {
    if deviceError != NoErrors
    then map[RateKey := Num(rate), ErrorsKey := Text(deviceError), ErrorsDateKey := Day(today)]
    else map[RateKey := Num(rate), ErrorsKey := Text(deviceError)]
  }

  /** Everything one UpdateTwinAsync sends, in order: an errors event when there are errors, then the patch. */
  function UpdateEffects(device: string, deviceError: string, rate: int, today: int): (es: seq<Effect>)
    ensures |es| == if deviceError == NoErrors then 1 else 2
    ensures es[|es| - 1] == ReportedUpdate(ReportPatch(deviceError, rate, today))
    ensures deviceError != NoErrors ==> es[0] == SentEvent(DeviceErrorsEvent(device, deviceError))
  {
    (if deviceError != NoErrors then [SentEvent(DeviceErrorsEvent(device, deviceError))] else [])
      + [ReportedUpdate(ReportPatch(deviceError, rate, today))]
  }

  function Repeat<T>(xs: seq<T>, n: nat): seq<T> {
    if n == 0 then [] else xs + Repeat(xs, n - 1)
  }

  /** The reported twin already holds exactly this rate and this error string. */
  predicate InSync(twin: Properties, errors: string, rate: Int32) {
    ReadInt(twin, RateKey) == Some(rate) && ReadText(twin, ErrorsKey) == Some(errors)
  }

  /**
   * How many times CheckTwinAsync calls UpdateTwinAsync. A failed read of
   * either reported property costs one update from the catch block; the
   * comparison afterwards uses whatever the locals hold by then.
   */
  function UpdateCount(twin: Properties, errors: string, rate: Int32): (k: nat)
    ensures k == 0 <==> InSync(twin, errors, rate)
    ensures ReadInt(twin, RateKey).None? ==> k == 1
    ensures ReadInt(twin, RateKey).Some? && ReadText(twin, ErrorsKey).Some? ==>
      k == if ReadInt(twin, RateKey).value != rate || ReadText(twin, ErrorsKey).value != errors then 1 else 0
    ensures ReadInt(twin, RateKey).Some? && ReadText(twin, ErrorsKey).None? ==>
      k == if ReadInt(twin, RateKey).value != rate then 2 else 1
  {
    var rateRead := ReadInt(twin, RateKey);
    var errorsRead := ReadText(twin, ErrorsKey);
    var threw := rateRead.None? || errorsRead.None?;
    var twinRate := if rateRead.Some? then rateRead.value else rate;
    var twinErrors := if rateRead.Some? && errorsRead.Some? then errorsRead.value else errors;
    (if threw then 1 else 0) + (if twinRate != rate || twinErrors != errors then 1 else 0)
  }

  /** The reported twin after CheckTwinAsync: patched when an update went out, untouched otherwise. */
  function AfterCheck(twin: Properties, errors: string, rate: Int32, today: int): Properties {
    if UpdateCount(twin, errors, rate) == 0 then twin else twin + ReportPatch(errors, rate, today)
  }

  /** After a check the reported twin is in sync, so a second check with the same values pushes nothing. */
  lemma CheckTwinIdempotent(twin: Properties, errors: string, rate: Int32, today: int)
    ensures InSync(AfterCheck(twin, errors, rate, today), errors, rate)
    ensures UpdateCount(AfterCheck(twin, errors, rate, today), errors, rate) == 0
    ensures AfterCheck(AfterCheck(twin, errors, rate, today), errors, rate, today) == AfterCheck(twin, errors, rate, today)
  {
    var after := AfterCheck(twin, errors, rate, today);
    if UpdateCount(twin, errors, rate) != 0 {
      assert after[RateKey] == Num(rate) && after[ErrorsKey] == Text(errors);
    }
  }

  /**
   * Starting from a twin written for (code0, rate0), a check for (code, rate)
   * pushes an update exactly when the rate or the error code changed: the
   * comparison of error strings is a comparison of error codes.
   */
  lemma UpdateIffObservedChanged(twin: Properties, code0: Int32, rate0: Int32, code: Int32, rate: Int32, today: int)
    ensures var written := twin + ReportPatch(ErrorsToString(code0), rate0, today);
      UpdateCount(written, ErrorsToString(code), rate) == (if code != code0 || rate != rate0 then 1 else 0)
  {
    ErrorsToStringInjective(code0, code);
    var written := twin + ReportPatch(ErrorsToString(code0), rate0, today);
    assert written[RateKey] == Num(rate0) && written[ErrorsKey] == Text(ErrorsToString(code0));
  }

  // ---------------------------------------------------------------------------
  // Direct methods

  /** The direct-method handlers the device registers, and the default one for any other name. */
  datatype Handler =
    | SendTelemetryHandler | EmergencyStopHandler | ResetErrorStatusHandler
    | ReduceProductionRateHandler | DefaultHandler

  /** The method name a handler is registered under. */
  function HandlerName(h: Handler): string
    requires h != DefaultHandler
  {
    match h
    case SendTelemetryHandler => "SendTelemetry"
    case EmergencyStopHandler => "EmergencyStop"
    case ResetErrorStatusHandler => "ResetErrorStatus"
    case ReduceProductionRateHandler => "ReduceProductionRate"
  }

  const RegisteredMethods: set<string> := {"SendTelemetry", "EmergencyStop", "ResetErrorStatus", "ReduceProductionRate"}

  /** The handler the SDK runs for a method name (names are matched case-exactly). */
  function HandlerFor(name: string): (h: Handler)
    ensures h == DefaultHandler <==> name !in RegisteredMethods
    ensures h != DefaultHandler ==> HandlerName(h) == name
  {
    if name == "SendTelemetry" then SendTelemetryHandler
    else if name == "EmergencyStop" then EmergencyStopHandler
    else if name == "ResetErrorStatus" then ResetErrorStatusHandler
    else if name == "ReduceProductionRate" then ReduceProductionRateHandler
    else DefaultHandler
  }

  /** Every registered handler is found again under its own name. */
  lemma HandlerTableRoundTrip(h: Handler)
    requires h != DefaultHandler
    ensures HandlerName(h) in RegisteredMethods && HandlerFor(HandlerName(h)) == h
  {
  }

  // ---------------------------------------------------------------------------
  // The device

  class VirtualDevice {
    const deviceNumber: string
    /** The controller's node values. */
    var nodes: map<Node, OpcValue>
    /** The hub-side reported twin. */
    var reported: Properties
    /** Everything the device has sent out, oldest first. */
    var log: seq<Effect>

    /** Every node exists, and the error and rate nodes hold `int` values. */
    ghost predicate Valid()
      reads this
    {
      (forall n: Node :: n in nodes)
      && nodes[DeviceError].IntValue? && nodes[ProductionRate].IntValue?
    }

    /** The rate node exists and holds an `int`, so the `(int)` cast of its value succeeds. */
    predicate RateReadable()
      reads this
    {
      ProductionRate in nodes && nodes[ProductionRate].IntValue?
    }

    function DeviceName(): string {
      "Device" + deviceNumber
    }

    function Rate(): Int32
      reads this
      requires Valid()
    {
      nodes[ProductionRate].i
    }

    function Errors(): Int32
      reads this
      requires Valid()
    {
      nodes[DeviceError].i
    }

    /** The telemetry body built from the current node values. */
    function CurrentTelemetry(): Telemetry
      reads this
      requires Valid()
    {
      Telemetry(DeviceName(), nodes[ProductionStatus], nodes[WorkorderId],
                nodes[GoodCount], nodes[BadCount], nodes[Temperature])
    }

    constructor (deviceNumber: string, nodes: map<Node, OpcValue>, reported: Properties)
      ensures this.deviceNumber == deviceNumber && this.nodes == nodes && this.reported == reported
      ensures log == []
      ensures Valid() <==> (forall n: Node :: n in nodes)
                           && nodes[DeviceError].IntValue? && nodes[ProductionRate].IntValue?
    {
      this.deviceNumber := deviceNumber;
      this.nodes := nodes;
      this.reported := reported;
      log := [];
    }

    /** UpdateTwinAsync: builds the reported-property patch and pushes it, sending an errors event first when there are errors. */
    method UpdateTwin(deviceError: string, productionRate: int, today: int)
      modifies this`reported, this`log
      ensures reported == old(reported) + ReportPatch(deviceError, productionRate, today)
      ensures log == old(log) + UpdateEffects(DeviceName(), deviceError, productionRate, today)
    {
      var patch: Properties := map[];
      patch := patch[RateKey := Num(productionRate)];
      if deviceError != NoErrors {
        patch := patch[ErrorsKey := Text(deviceError)];
        patch := patch[ErrorsDateKey := Day(today)];
        log := log + [SentEvent(DeviceErrorsEvent(DeviceName(), deviceError))];
      } else {
        patch := patch[ErrorsKey := Text(deviceError)];
      }
      reported := reported + patch;
      log := log + [ReportedUpdate(patch)];
    }

    /** CheckTwinAsync: compares the reported twin with the observed values and updates it on divergence or on a failed read. */
    method CheckTwin(deviceErrors: Int32, productionRate: Int32, today: int)
      modifies this`reported, this`log
      ensures reported == AfterCheck(old(reported), ErrorsToString(deviceErrors), productionRate, today)
      ensures log == old(log) + Repeat(UpdateEffects(DeviceName(), ErrorsToString(deviceErrors), productionRate, today),
                                        UpdateCount(old(reported), ErrorsToString(deviceErrors), productionRate))
    {
      var errorsString := ErrorsToString(deviceErrors);
      var twin := reported;
      var twinProductionRate: int := productionRate;
      var twinDeviceErrors := errorsString;
      var threw := false;
      // try
      var rateRead := ReadInt(twin, RateKey);
      if rateRead.Some? {
        twinProductionRate := rateRead.value;
        var errorsRead := ReadText(twin, ErrorsKey);
        if errorsRead.Some? {
          twinDeviceErrors := errorsRead.value;
        } else {
          threw := true;
        }
      } else {
        threw := true;
      }
      ghost var effects := UpdateEffects(DeviceName(), errorsString, productionRate, today);
      ghost var patch := ReportPatch(errorsString, productionRate, today);
      assert Repeat(effects, 1) == effects + [] == effects;
      assert Repeat(effects, 2) == effects + Repeat(effects, 1) == effects + effects;
      // catch
      if threw {
        UpdateTwin(errorsString, productionRate, today);
      }
      if twinProductionRate != productionRate || twinDeviceErrors != errorsString {
        UpdateTwin(errorsString, productionRate, today);
        assert old(reported) + patch + patch == old(reported) + patch;
      }
    }

    /** SendTelemetry: sends the telemetry event, then reconciles the twin with the error and rate nodes. */
    method SendTelemetry(today: int)
      requires Valid()
      modifies this`reported, this`log
      ensures reported == AfterCheck(old(reported), ErrorsToString(Errors()), Rate(), today)
      ensures log == old(log) + [SentEvent(TelemetryEvent(CurrentTelemetry()))]
                     + Repeat(UpdateEffects(DeviceName(), ErrorsToString(Errors()), Rate(), today),
                              UpdateCount(old(reported), ErrorsToString(Errors()), Rate()))
    {
      var telemetry := Telemetry(DeviceName(), nodes[ProductionStatus], nodes[WorkorderId],
                                 nodes[GoodCount], nodes[BadCount], nodes[Temperature]);
      var deviceErrors := nodes[DeviceError].i;
      var productionRate := nodes[ProductionRate].i;
      log := log + [SentEvent(TelemetryEvent(telemetry))];
      CheckTwin(deviceErrors, productionRate, today);
    }

    /**
     * EmergencyStop: calls the controller's EmergencyStop method, then forces
     * the rate to 0. A write to a node the controller does not have creates
     * nothing.
     */
    method EmergencyStop()
      modifies this`nodes, this`log
      ensures old(Valid()) ==> Valid() && Rate() == 0
      ensures nodes == if ProductionRate in old(nodes) then old(nodes)[ProductionRate := IntValue(0)] else old(nodes)
      ensures log == old(log) + [ControllerCall("EmergencyStop")]
    {
      log := log + [ControllerCall("EmergencyStop")];
      if ProductionRate in nodes {
        nodes := nodes[ProductionRate := IntValue(0)];
      }
    }

    /** ResetErrorStatus: calls the controller's ResetErrorStatus method. */
    method ResetErrorStatus()
      modifies this`log
      ensures log == old(log) + [ControllerCall("ResetErrorStatus")]
    {
      log := log + [ControllerCall("ResetErrorStatus")];
    }

    /**
     * ReduceProductionRate: reads the rate and writes it back one step lower.
     * When the rate node is missing or holds no `int` the cast throws before
     * anything is written, and `completed` is false.
     */
    method ReduceProductionRate() returns (completed: bool)
      modifies this`nodes
      ensures completed <==> old(RateReadable())
      ensures completed ==>
        nodes == old(nodes)[ProductionRate := IntValue(ReducedRate(old(nodes)[ProductionRate].i))]
      ensures !completed ==> nodes == old(nodes)
      ensures old(Valid()) ==> Valid() && Rate() == ReducedRate(old(Rate()))
    {
      if !(ProductionRate in nodes && nodes[ProductionRate].IntValue?) {
        return false;
      }
      var productionRate := nodes[ProductionRate].i;
      nodes := nodes[ProductionRate := IntValue(if productionRate == 0 then productionRate else Wrap32(productionRate - 10))];
      completed := true;
    }

    /**
     * The desired-property callback: writes the clamped desired rate to the
     * controller and echoes the raw desired value as a reported property.
     * When the desired properties hold no `int` productionRate the callback
     * throws before it writes anything. A write to a missing rate node
     * creates nothing.
     */
    method OnDesiredPropertyChanged(desired: Properties)
      modifies this`nodes, this`reported, this`log
      ensures old(Valid()) ==> Valid()
      ensures ReadInt(desired, RateKey).None? ==>
        nodes == old(nodes) && reported == old(reported) && log == old(log)
      ensures ReadInt(desired, RateKey).Some? ==>
        && nodes == (if ProductionRate in old(nodes)
                     then old(nodes)[ProductionRate := IntValue(Clamp(ReadInt(desired, RateKey).value))]
                     else old(nodes))
        && (ProductionRate in nodes ==> nodes[ProductionRate].IntValue? && 0 <= nodes[ProductionRate].i <= 100)
        && reported == old(reported)[RateKey := desired[RateKey]]
        && log == old(log) + [ReportedUpdate(map[RateKey := desired[RateKey]])]
    {
      var requested := ReadInt(desired, RateKey);
      if requested.None? {
        return;
      }
      var patch: Properties := map[RateKey := desired[RateKey]];
      var productionRateChanged := requested.value;
      if productionRateChanged <= 0 {
        productionRateChanged := 0;
      } else if productionRateChanged >= 100 {
        productionRateChanged := 100;
      }
      if ProductionRate in nodes {
        nodes := nodes[ProductionRate := IntValue(productionRateChanged)];
      }
      reported := reported + patch;
      log := log + [ReportedUpdate(patch)];
    }

    /**
     * Runs the handler registered for a direct method name; every handler
     * that returns answers status 0.
     */
    method InvokeMethod(name: string, today: int) returns (status: int)
      requires HandlerFor(name) == SendTelemetryHandler ==> Valid()
      requires HandlerFor(name) == ReduceProductionRateHandler ==> RateReadable()
      modifies this`nodes, this`reported, this`log
      ensures old(Valid()) ==> Valid()
      ensures status == 0
      ensures HandlerFor(name) == DefaultHandler ==>
        nodes == old(nodes) && reported == old(reported) && log == old(log)
      ensures HandlerFor(name) == EmergencyStopHandler ==>
        nodes == (if ProductionRate in old(nodes) then old(nodes)[ProductionRate := IntValue(0)] else old(nodes))
        && reported == old(reported) && log == old(log) + [ControllerCall("EmergencyStop")]
      ensures HandlerFor(name) == ResetErrorStatusHandler ==>
        nodes == old(nodes) && reported == old(reported) && log == old(log) + [ControllerCall("ResetErrorStatus")]
      ensures HandlerFor(name) == ReduceProductionRateHandler ==>
        nodes == old(nodes)[ProductionRate := IntValue(ReducedRate(old(nodes)[ProductionRate].i))]
        && reported == old(reported) && log == old(log)
      ensures HandlerFor(name) == SendTelemetryHandler ==>
        nodes == old(nodes)
        && reported == AfterCheck(old(reported), ErrorsToString(Errors()), Rate(), today)
        && log == old(log) + [SentEvent(TelemetryEvent(CurrentTelemetry()))]
                 + Repeat(UpdateEffects(DeviceName(), ErrorsToString(Errors()), Rate(), today),
                          UpdateCount(old(reported), ErrorsToString(Errors()), Rate()))
    {
      match HandlerFor(name) {
        case SendTelemetryHandler => SendTelemetry(today);
        case EmergencyStopHandler => EmergencyStop();
        case ResetErrorStatusHandler => ResetErrorStatus();
        case ReduceProductionRateHandler => var _ := ReduceProductionRate();
        case DefaultHandler =>
      }
      status := 0;
    }
  }
}
