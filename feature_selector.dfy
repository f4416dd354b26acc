/**
 * The operator console of the hub service: the menu key reader, the
 * direct-method menu, the feature dispatch, and the business-rule poll that
 * reads two snapshot records and invokes device methods when a threshold is
 * crossed.
 *
 * Calls into the hub manager are recorded as steps of a trace, together with
 * the snapshot reads, so the order in which things happen is part of each
 * result. The hub's answer to a call, the snapshot files and the JSON
 * parsers are parameters.
 */
module FeatureSelector {
  import opened Wrappers
  import opened Numerics

  /** A configured blob: the snapshot file name and the device method its rule invokes. */
  datatype Blob = Blob(blobName: string, methodName: string)

  /** The parsed KPI snapshot record. */
  datatype ProductionKpi = ProductionKpi(device: string, kpi: real)

  /** The parsed error-count snapshot record. */
  datatype DeviceErrors = DeviceErrors(count: int, device: string)

  /** The calls the console makes on the hub manager. */
  datatype HubCall =
    | SendMessage(text: string, deviceId: string)
    | ExecuteDeviceMethod(methodName: string, deviceId: string)
    | UpdateDesiredTwin(deviceId: string, propertyName: string, value: int)

  /** How a hub call ends: normally, with a device-not-found exception, or with any other exception. */
  datatype HubReply = Done | DeviceNotFound | Failed

  datatype Step = ReadSnapshot(blobName: string) | Call(call: HubCall)

  /** Everything outside the console: snapshot files by name (as lines), the two record parsers, and the hub. */
  datatype Environment = Environment(
    files: map<string, seq<string>>,
    parseKpi: string -> Option<ProductionKpi>,
    parseErrors: string -> Option<DeviceErrors>,
    hub: HubCall -> HubReply)

  /** Completed, or Aborted when the poll's catch-all reported a problem. */
  datatype Outcome = Completed | Aborted

  datatype PollResult = PollResult(trace: seq<Step>, outcome: Outcome)

  const KpiThreshold: real := 90.0
  const ErrorThreshold: int := 3

  // ---------------------------------------------------------------------------
  // Menu input

  /** ReadInput: the value of a digit key, and -1 for any other key. */
  function ReadInput(key: char): (v: int)
    ensures -1 <= v <= 9
    ensures v >= 0 <==> IsDigit(key)
    ensures v >= 0 ==> DigitChar(v) == key
  {
    if IsDigit(key) then DigitValue(key) else -1
  }

  /** Only the '0' key ends the console loop. */
  lemma ReadInputExit(key: char)
    ensures ReadInput(key) == 0 <==> key == '0'
  {
  }

  /** The direct-method menu: 2, 3 and 4 pick their methods and every other number picks EmergencyStop. */
  function MethodFor(choice: int): (m: string)
    ensures m in {"EmergencyStop", "ResetErrorStatus", "ReduceProductionRate", "SendTelemetry"}
    ensures m == "ResetErrorStatus" <==> choice == 2
    ensures m == "ReduceProductionRate" <==> choice == 3
    ensures m == "SendTelemetry" <==> choice == 4
    ensures m == "EmergencyStop" <==> choice !in {2, 3, 4}
  {
    if choice == 2 then "ResetErrorStatus"
    else if choice == 3 then "ReduceProductionRate"
    else if choice == 4 then "SendTelemetry"
    else "EmergencyStop"
  }

  // ---------------------------------------------------------------------------
  // Business-rule poll

  /** The first line of a snapshot file; a missing or empty file gives nothing. */
  function FirstLine(files: map<string, seq<string>>, name: string): Option<string> {
    if name in files && |files[name]| > 0 then Some(files[name][0]) else None
  }

  function ReadKpi(env: Environment, name: string): Option<ProductionKpi> {
    match FirstLine(env.files, name)
    case None => None
    case Some(line) => env.parseKpi(line)
  }

  function ReadErrors(env: Environment, name: string): Option<DeviceErrors> {
    match FirstLine(env.files, name)
    case None => None
    case Some(line) => env.parseErrors(line)
  }

  /** The steps of the KPI rule once its record is read: the call, if the KPI is below the threshold. */
  function KpiRuleSteps(blob: Blob, kpi: ProductionKpi): seq<Step> {
    if kpi.kpi < KpiThreshold then [Call(ExecuteDeviceMethod(blob.methodName, kpi.device))] else []
  }

  /** The steps of the error rule once its record is read: the call, if the count is above the threshold. */
  function ErrorRuleSteps(blob: Blob, errors: DeviceErrors): seq<Step> {
    if errors.count > ErrorThreshold then [Call(ExecuteDeviceMethod(blob.methodName, errors.device))] else []
  }

  /** A rule's call ended with an exception other than device-not-found. */
  predicate CallFailed(steps: seq<Step>, env: Environment) {
    |steps| > 0 && steps[0].Call? && env.hub(steps[0].call) == Failed
  }

  /**
   * What BusinessLogic does: read the KPI record named by the first blob and
   * apply its rule, then read the error record named by the second blob and
   * apply its rule. Any failure outside a caught device-not-found ends the poll.
   */
  function Poll(blobs: seq<Blob>, env: Environment): PollResult {
    if |blobs| == 0 then PollResult([], Aborted)
    else
      var kpiRead := [ReadSnapshot(blobs[0].blobName)];
      match ReadKpi(env, blobs[0].blobName)
      case None => PollResult(kpiRead, Aborted)
      case Some(kpi) =>
        var kpiSteps := KpiRuleSteps(blobs[0], kpi);
        if CallFailed(kpiSteps, env) || |blobs| == 1 then PollResult(kpiRead + kpiSteps, Aborted)
        else
          var errorsRead := [ReadSnapshot(blobs[1].blobName)];
          match ReadErrors(env, blobs[1].blobName)
          case None => PollResult(kpiRead + kpiSteps + errorsRead, Aborted)
          case Some(errors) =>
            var errorSteps := ErrorRuleSteps(blobs[1], errors);
            PollResult(kpiRead + kpiSteps + errorsRead + errorSteps,
                       if CallFailed(errorSteps, env) then Aborted else Completed)
  }

  /** The foreach loop that copies the configured blobs into a list, keeping their order. */
  method CopyBlobs(config: seq<Blob>) returns (blobs: seq<Blob>)
    ensures blobs == config
  {
    blobs := [];
    var i := 0;
    while i < |config|
      invariant 0 <= i <= |config|
      invariant blobs == config[..i]
    {
      blobs := blobs + [config[i]];
      i := i + 1;
    }
  }

  /** BusinessLogic: the poll as the console runs it, step by step. */
  method BusinessLogic(config: seq<Blob>, env: Environment) returns (trace: seq<Step>, outcome: Outcome)
    ensures PollResult(trace, outcome) == Poll(config, env)
  {
    var productionKpi: Option<ProductionKpi> := None;
    var deviceErrors: Option<DeviceErrors> := None;
    var blobs := CopyBlobs(config);
    trace := [];
    // try
    if |blobs| == 0 {
      return trace, Aborted;
    }
    trace := trace + [ReadSnapshot(blobs[0].blobName)];
    productionKpi := ReadKpi(env, blobs[0].blobName);
    if productionKpi.None? {
      return trace, Aborted;
    }
    if productionKpi.value.kpi < KpiThreshold {
      var call := ExecuteDeviceMethod(blobs[0].methodName, productionKpi.value.device);
      trace := trace + [Call(call)];
      if env.hub(call) == Failed {
        return trace, Aborted;
      }
    }
    if |blobs| == 1 {
      return trace, Aborted;
    }
    trace := trace + [ReadSnapshot(blobs[1].blobName)];
    deviceErrors := ReadErrors(env, blobs[1].blobName);
    if deviceErrors.None? {
      return trace, Aborted;
    }
    if deviceErrors.value.count > ErrorThreshold {
      var call := ExecuteDeviceMethod(blobs[1].methodName, deviceErrors.value.device);
      trace := trace + [Call(call)];
      if env.hub(call) == Failed {
        return trace, Aborted;
      }
    }
    return trace, Completed;
  }

  // ---------------------------------------------------------------------------
  // Properties of the poll

  /** Without a first blob, or when the KPI record cannot be read or parsed, the poll issues no command. */
  lemma KpiFailureIssuesNothing(blobs: seq<Blob>, env: Environment)
    requires |blobs| == 0 || ReadKpi(env, blobs[0].blobName).None?
    ensures Poll(blobs, env).outcome == Aborted
    ensures forall i :: 0 <= i < |Poll(blobs, env).trace| ==> !Poll(blobs, env).trace[i].Call?
  {
  }

  /**
   * The KPI record is read first, and its rule invokes the first blob's
   * method on the record's device, right after the read, exactly when the
   * KPI is below 90.0.
   */
  lemma KpiRuleFiresIffBelowThreshold(blobs: seq<Blob>, env: Environment, kpi: ProductionKpi)
    requires |blobs| > 0 && ReadKpi(env, blobs[0].blobName) == Some(kpi)
    ensures var t := Poll(blobs, env).trace;
      |t| > 0 && t[0] == ReadSnapshot(blobs[0].blobName)
      && (kpi.kpi < 90.0 <==> |t| > 1 && t[1].Call?)
      && (kpi.kpi < 90.0 ==> t[1] == Call(ExecuteDeviceMethod(blobs[0].methodName, kpi.device)))
  {
  }

  /**
   * With the KPI rule done, the error record is read next, and its rule
   * invokes the second blob's method on the record's device, as the last
   * step, exactly when the count is above 3.
   */
  lemma ErrorRuleFiresIffAboveThreshold(blobs: seq<Blob>, env: Environment, kpi: ProductionKpi, errors: DeviceErrors)
    requires |blobs| > 1 && ReadKpi(env, blobs[0].blobName) == Some(kpi)
    requires !CallFailed(KpiRuleSteps(blobs[0], kpi), env)
    requires ReadErrors(env, blobs[1].blobName) == Some(errors)
    ensures var t := Poll(blobs, env).trace;
      var n := |KpiRuleSteps(blobs[0], kpi)|;
      |t| == n + 2 + (if errors.count > 3 then 1 else 0)
      && t[n + 1] == ReadSnapshot(blobs[1].blobName)
      && (errors.count > 3 <==> t[|t| - 1].Call?)
      && (errors.count > 3 ==> t[|t| - 1] == Call(ExecuteDeviceMethod(blobs[1].methodName, errors.device)))
  {
  }

  /** A failure on the error record comes after the KPI rule's command, which has already been issued. */
  lemma ErrorFailureAfterKpiCommand(blobs: seq<Blob>, env: Environment, kpi: ProductionKpi)
    requires |blobs| > 1 && ReadKpi(env, blobs[0].blobName) == Some(kpi)
    requires !CallFailed(KpiRuleSteps(blobs[0], kpi), env)
    requires ReadErrors(env, blobs[1].blobName).None?
    ensures Poll(blobs, env) == PollResult(
      [ReadSnapshot(blobs[0].blobName)] + KpiRuleSteps(blobs[0], kpi) + [ReadSnapshot(blobs[1].blobName)], Aborted)
  {
  }

  /**
   * A device-not-found answer to the KPI command is caught on the spot and
   * the error record is still read; any other failure ends the poll there.
   */
  lemma KpiCommandFailures(blobs: seq<Blob>, env: Environment, kpi: ProductionKpi)
    requires |blobs| > 1 && ReadKpi(env, blobs[0].blobName) == Some(kpi) && kpi.kpi < 90.0
    ensures var call := ExecuteDeviceMethod(blobs[0].methodName, kpi.device);
      && (env.hub(call) == DeviceNotFound ==>
            |Poll(blobs, env).trace| > 2 && Poll(blobs, env).trace[2] == ReadSnapshot(blobs[1].blobName))
      && (env.hub(call) == Failed ==>
            Poll(blobs, env) == PollResult([ReadSnapshot(blobs[0].blobName), Call(call)], Aborted))
  {
  }

  /** A poll reads at most two records and issues each command right after the read its rule depends on. */
  lemma AtMostOneCommandPerRead(blobs: seq<Blob>, env: Environment)
    ensures var t := Poll(blobs, env).trace;
      && |t| <= 4
      && (forall i :: 0 <= i < |t| && t[i].ReadSnapshot? ==> i == 0 || t[i].blobName == blobs[1].blobName)
      && (forall i :: 0 <= i < |t| && t[i].Call? ==> i > 0 && t[i - 1].ReadSnapshot?)
  {
  }

  /** Each snapshot file with only its first line kept. */
  function FirstLines(files: map<string, seq<string>>): (r: map<string, seq<string>>)
    ensures r.Keys == files.Keys
    ensures forall name :: name in r ==> |r[name]| <= 1 && FirstLine(r, name) == FirstLine(files, name)
  {
    map name | name in files :: files[name][..if |files[name]| > 0 then 1 else 0]
  }

  /** Only the first line of each snapshot file matters. */
  lemma OnlyFirstLinesMatter(blobs: seq<Blob>, env: Environment)
    ensures Poll(blobs, env.(files := FirstLines(env.files))) == Poll(blobs, env)
  {
    var env' := env.(files := FirstLines(env.files));
    forall name ensures ReadKpi(env', name) == ReadKpi(env, name) && ReadErrors(env', name) == ReadErrors(env, name) {
      assert FirstLine(env'.files, name) == FirstLine(env.files, name);
    }
  }

  /** Blobs after the second one in the configuration are never consulted. */
  lemma OnlyFirstTwoBlobsMatter(blobs: seq<Blob>, env: Environment)
    requires |blobs| >= 2
    ensures Poll(blobs, env) == Poll(blobs[..2], env)
  {
  }

  // ---------------------------------------------------------------------------
  // Feature dispatch

  /** A draw of `Random.Next()`: a non-negative `int` below `Int32.MaxValue`. */
  type RandomDraw = x: int | 0 <= x < MaxInt32

  /** What the operator types or the console draws for one feature. */
  datatype OperatorInput = OperatorInput(
    message: string,
    deviceId: string,
    methodChoice: int,
    propertyName: string,
    randomValue: RandomDraw,
    config: seq<Blob>)

  /** Execute returned normally, or an exception escaped it. */
  datatype ExecOutcome = Returned | Threw

  /** Execute: runs the feature picked in the menu; any number outside 1 to 4 does nothing. */
  method Execute(feature: int, input: OperatorInput, env: Environment) returns (trace: seq<Step>, outcome: ExecOutcome)
    ensures feature !in {1, 2, 3, 4} ==> trace == [] && outcome == Returned
    ensures feature == 1 ==>
      var call := SendMessage(input.message, input.deviceId);
      trace == [Call(call)] && (outcome == Threw <==> env.hub(call) != Done)
    ensures feature == 2 ==>
      var call := ExecuteDeviceMethod(MethodFor(input.methodChoice), input.deviceId);
      trace == [Call(call)] && (outcome == Threw <==> env.hub(call) == Failed)
    ensures feature == 3 ==>
      var call := UpdateDesiredTwin(input.deviceId, input.propertyName, input.randomValue);
      trace == [Call(call)] && (outcome == Threw <==> env.hub(call) != Done)
    ensures feature == 4 ==> trace == Poll(input.config, env).trace && outcome == Returned
  {
    trace := [];
    outcome := Returned;
    if feature == 1 {
      var call := SendMessage(input.message, input.deviceId);
      trace := [Call(call)];
      if env.hub(call) != Done {
        outcome := Threw;
      }
    } else if feature == 2 {
      var methodName := MethodFor(input.methodChoice);
      var call := ExecuteDeviceMethod(methodName, input.deviceId);
      trace := [Call(call)];
      // a device-not-found exception is caught here; any other escapes
      if env.hub(call) == Failed {
        outcome := Threw;
      }
    } else if feature == 3 {
      var call := UpdateDesiredTwin(input.deviceId, input.propertyName, input.randomValue);
      trace := [Call(call)];
      if env.hub(call) != Done {
        outcome := Threw;
      }
    } else if feature == 4 {
      var pollOutcome;
      trace, pollOutcome := BusinessLogic(input.config, env);
    }
  }
}
