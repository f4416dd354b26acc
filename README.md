# Device agent and operator console of the IoT factory demo, in Dafny

This project models the decision logic of two parts of the factory-device demo:

- **The device agent** (`DeviceSdkDemo.Console/VirtualDevice.cs`). One simulated device reads its controller's OPC UA nodes. It sends telemetry to the hub and keeps its reported twin (`productionRate`, `deviceErrors`, `lastDeviceErrorsDate`) in step with what it observes. It also answers the direct methods `SendTelemetry`, `EmergencyStop`, `ResetErrorStatus` and `ReduceProductionRate`, and reacts to desired-property changes. The class `VirtualDeviceModel.VirtualDevice` holds:
  - the controller's nodes as a map;
  - the hub-side reported twin as a map, which each reported-property update patches;
  - a log of everything the device sends out, in order: events, reported-property patches and controller method calls.

  Every SDK read, write or send is a field access or a log append.
- **The flag text of `deviceErrorsEnum`** (module `ErrorFlags`). .NET's `Enum.ToString()` gives `"None"` for 0. A combination of named flags gives their names in ascending bit order, joined by `", "`. Any other value gives its decimal number. The module also has an inverse, used to prove that the text identifies the error code. Because of that, the string comparison in `CheckTwinAsync` is a comparison of error codes.
- **The operator console** (`ServiceSdkDemo.Console/FeatureSelector.cs`), in module `FeatureSelector`. It covers the menu key reader, the direct-method menu, the feature dispatch of `Execute`, and the business-rule poll `BusinessLogic`. The poll reads a KPI record and an error-count record and invokes device methods when a threshold is crossed. Each hub call and each snapshot read is a step of a trace, so the order of reads and commands is part of every result. The hub's answer to a call is a parameter, and so are the snapshot files (a map from name to lines) and the two JSON record parsers. The answer is one of: done, device not found, or any other exception.
- Module `Fleet` joins the two sides. Every method name the operator menu can send is one the device registers a handler for.

C# `int` is modelled as `Numerics.Int32`, and the unchecked subtraction in `ReduceProductionRate` wraps around explicitly. Clock and randomness are parameters:
- `DateTime.Today` is the `today` argument;
- `random.Next()` is `OperatorInput.randomValue`.

## Behaviour worth noting

- `ReduceProductionRate` has no floor. A rate of 0 stays 0, and any other rate goes down by 10, so 5 becomes -5 (`VirtualDevice.cs:194`). One might expect the rate to be floored at 0; the model keeps the negative result.
- The business-rule poll issues the KPI command before it reads the error record. A failure on the error record therefore comes after that command has been issued (`FeatureSelector.cs:125-139`). One might expect a read failure to skip both rules; the model keeps the command that was already issued.
- A failed read of the reported twin does not always cause exactly one forced update. If `productionRate` is readable but `deviceErrors` is not, the catch block pushes one update. The comparison that follows then pushes a second one when the reported rate differs (`VirtualDevice.cs:219-236`).
- The enum spells two flags `SensorFailrule` and `UnknownFailrule` (`VirtualDevice.cs:17-18`). Those are the strings the twin carries.
- A direct-method failure other than device-not-found does not stay inside the KPI rule. It reaches the poll's outer catch and ends the poll, and the error record is never read (`FeatureSelector.cs:127-135, 153`).

## Model

| member | source | states |
|---|---|---|
| `ErrorFlags.ErrorsToString` | DeviceSdkDemo.Console/VirtualDevice.cs:11-19 | the text is "None" exactly for error code 0, and it is never empty |
| `ErrorFlags.SingleFlagNames` | DeviceSdkDemo.Console/VirtualDevice.cs:11-19 | 0 renders "None"; 1, 2, 4 and 8 render "EmergencyStop", "PowerFailure", "SensorFailrule" and "UnknownFailrule" |
| `ErrorFlags.CombinedAndUnnamedFlags` | DeviceSdkDemo.Console/VirtualDevice.cs:11-19 | 5 renders "EmergencyStop, SensorFailrule"; 16 and -1, which no flag names, render as numbers |
| `ErrorFlags.ErrorsToStringRoundTrip` | DeviceSdkDemo.Console/VirtualDevice.cs:213 | reading the flag text back gives the error code it was made from, for every 32-bit code |
| `ErrorFlags.ErrorsToStringInjective` | DeviceSdkDemo.Console/VirtualDevice.cs:213 | two error codes have the same text exactly when they are equal |
| `VirtualDeviceModel.Clamp` | DeviceSdkDemo.Console/VirtualDevice.cs:298-302 | the applied rate is always in [0, 100]: 0 for x <= 0, 100 for x >= 100, and x in between |
| `VirtualDeviceModel.ReducedRate` | DeviceSdkDemo.Console/VirtualDevice.cs:192-194 | 0 stays 0; any other rate r becomes r - 10 with 32-bit wrap-around and no floor |
| `VirtualDeviceModel.ReducedRateExamples` | DeviceSdkDemo.Console/VirtualDevice.cs:194 | 5 becomes -5; 10 becomes 0 and then stays 0; 100 becomes 90 |
| `VirtualDeviceModel.ReportPatch` | DeviceSdkDemo.Console/VirtualDevice.cs:247-283 | an update always carries productionRate and deviceErrors; lastDeviceErrorsDate, set to today, is present exactly when the error text is not "None" |
| `VirtualDeviceModel.UpdateEffects` | DeviceSdkDemo.Console/VirtualDevice.cs:249-285 | an update sends a device-errors event exactly when the error text is not "None", and that event comes before the reported-property patch |
| `VirtualDeviceModel.UpdateCount` | DeviceSdkDemo.Console/VirtualDevice.cs:211-242 | no update is pushed exactly when the reported twin already holds the observed rate and error text. When both reads succeed, one update is pushed on divergence. A failed rate read gives exactly one update. A failed error read gives one update, plus one more when the reported rate differs |
| `VirtualDeviceModel.CheckTwinIdempotent` | DeviceSdkDemo.Console/VirtualDevice.cs:229-285 | after a check the twin is in sync, and a second check with the same values pushes nothing and changes nothing |
| `VirtualDeviceModel.UpdateIffObservedChanged` | DeviceSdkDemo.Console/VirtualDevice.cs:213-235 | against a twin written for (code0, rate0), a check for (code, rate) pushes exactly one update if the code or the rate changed, and none otherwise |
| `VirtualDeviceModel.HandlerFor` | DeviceSdkDemo.Console/VirtualDevice.cs:317-321 | exactly the four case-exact names SendTelemetry, EmergencyStop, ResetErrorStatus and ReduceProductionRate have their own handler, each registered under its own name; every other name goes to the default handler |
| `VirtualDeviceModel.HandlerTableRoundTrip` | DeviceSdkDemo.Console/VirtualDevice.cs:318-321 | each registered handler is found again under the name it is registered with |
| `VirtualDeviceModel.VirtualDevice.constructor` | DeviceSdkDemo.Console/VirtualDevice.cs:28-33 | a new device starts from the given controller nodes and reported twin, with nothing sent yet; it is `Valid` exactly when every node exists and the error and rate nodes hold `int` values |
| `VirtualDeviceModel.VirtualDevice.UpdateTwin` | DeviceSdkDemo.Console/VirtualDevice.cs:245-286 | the reported twin is patched with the update's properties, and the log gains the update's effects in order |
| `VirtualDeviceModel.VirtualDevice.CheckTwin` | DeviceSdkDemo.Console/VirtualDevice.cs:211-243 | the device pushes the update for (error text, rate) exactly UpdateCount times, and the reported twin ends patched, or untouched when nothing was pushed |
| `VirtualDeviceModel.VirtualDevice.SendTelemetry` | DeviceSdkDemo.Console/VirtualDevice.cs:37-88 | a telemetry event with the device name and the five telemetry nodes is sent first; then the twin is reconciled with the error and rate nodes |
| `VirtualDeviceModel.VirtualDevice.EmergencyStop` | DeviceSdkDemo.Console/VirtualDevice.cs:142-154 | the controller's EmergencyStop method is called, and afterwards an existing ProductionRate node is 0 whatever it was, while a missing one stays missing (the write creates nothing); no other node changes, and a valid device stays valid |
| `VirtualDeviceModel.VirtualDevice.ResetErrorStatus` | DeviceSdkDemo.Console/VirtualDevice.cs:167-175 | the controller's ResetErrorStatus method is called, and nothing else happens |
| `VirtualDeviceModel.VirtualDevice.ReduceProductionRate` | DeviceSdkDemo.Console/VirtualDevice.cs:188-197 | it completes exactly when the ProductionRate node holds an `int`; then that node becomes ReducedRate of its old value and no other node changes. Otherwise the cast throws and nothing changes |
| `VirtualDeviceModel.VirtualDevice.OnDesiredPropertyChanged` | DeviceSdkDemo.Console/VirtualDevice.cs:288-310 | with an `int` desired productionRate, the clamped value, always in [0, 100], is written to an existing rate node (a missing one stays missing), and the raw unclamped desired value is echoed as the reported productionRate. Without one, nothing changes |
| `VirtualDeviceModel.VirtualDevice.InvokeMethod` | DeviceSdkDemo.Console/VirtualDevice.cs:121-207 | every handler, including the default one for unknown names, answers status 0, and each one has its method's effect: the exact new node map, reported twin and log for each handler |
| `FeatureSelector.ReadInput` | ServiceSdkDemo.Console/FeatureSelector.cs:101-106 | the result is in [-1, 9]; it is a digit value exactly for the keys '0' to '9', and that digit's character is the key pressed |
| `FeatureSelector.ReadInputExit` | ServiceSdkDemo.Console/FeatureSelector.cs:101-106 | only the '0' key reads as 0, the exit choice |
| `FeatureSelector.MethodFor` | ServiceSdkDemo.Console/FeatureSelector.cs:51-66 | 2 picks ResetErrorStatus, 3 picks ReduceProductionRate, 4 picks SendTelemetry, and each only for that number; every other number, 1 included, picks EmergencyStop |
| `FeatureSelector.CopyBlobs` | ServiceSdkDemo.Console/FeatureSelector.cs:114-118 | the blob list holds the configured blobs in configuration order |
| `FeatureSelector.BusinessLogic` | ServiceSdkDemo.Console/FeatureSelector.cs:108-158 | the reads and commands the poll performs, in order, and whether it ends in its catch-all, are those of Poll |
| `FeatureSelector.KpiFailureIssuesNothing` | ServiceSdkDemo.Console/FeatureSelector.cs:121-125 | with no first blob, or with a KPI record that cannot be read or parsed, the poll is aborted and issues no command at all |
| `FeatureSelector.KpiRuleFiresIffBelowThreshold` | ServiceSdkDemo.Console/FeatureSelector.cs:123-136 | the KPI record is read first; the first blob's method is invoked once on the record's device, right after the read, exactly when Kpi < 90.0 |
| `FeatureSelector.ErrorRuleFiresIffAboveThreshold` | ServiceSdkDemo.Console/FeatureSelector.cs:138-151 | after the KPI rule the error record is read; the second blob's method is invoked once on the record's device, as the last step, exactly when Count > 3 |
| `FeatureSelector.ErrorFailureAfterKpiCommand` | ServiceSdkDemo.Console/FeatureSelector.cs:121-157 | a failure on the error record aborts the poll after the KPI rule's command has already been issued |
| `FeatureSelector.KpiCommandFailures` | ServiceSdkDemo.Console/FeatureSelector.cs:127-138 | device-not-found on the KPI command is caught on the spot and the error record is still read; any other failure ends the poll right after the command |
| `FeatureSelector.AtMostOneCommandPerRead` | ServiceSdkDemo.Console/FeatureSelector.cs:121-152 | a poll reads the first blob's record and then at most the second blob's. Each command comes right after the read of the record its rule depends on, so there is at most one command per rule |
| `FeatureSelector.OnlyFirstLinesMatter` | ServiceSdkDemo.Console/FeatureSelector.cs:123-139 | keeping only the first line of every snapshot file does not change the poll |
| `FeatureSelector.OnlyFirstTwoBlobsMatter` | ServiceSdkDemo.Console/FeatureSelector.cs:114-138 | blobs after the second one in the configuration never influence the poll |
| `FeatureSelector.Execute` | ServiceSdkDemo.Console/FeatureSelector.cs:22-98 | numbers outside 1 to 4, 0 and -1 included, do nothing. Feature 1 sends a message and feature 3 sets a desired property; each lets any hub exception escape. Feature 2 invokes the chosen method and catches device-not-found. Feature 4 runs the poll |
| `Fleet.MenuMethodsAreRegistered` | ServiceSdkDemo.Console/FeatureSelector.cs:51-66 | every method the operator menu can send has a registered device handler (VirtualDevice.cs:318-321); numbers other than 2, 3 and 4 reach the EmergencyStop handler |

## Left out

- OPC UA sessions are not modelled. Each operation's connect and disconnect is dropped; reads and writes act directly on the node map.
- `Task.Delay`, async scheduling, console output and colours, and the C2D message callback (`OnC2dMessageReceivedAsync`, `PrintMessage`) are not modelled. The callback only prints and completes the message.
- JSON serialisation of events and reported properties is not modelled, and neither is JSON parsing of snapshot lines. The parsers are parameters, and a `null`, missing or malformed record counts as a parse failure.
- The deserialisation of direct-method payloads is not modelled. Its result is never used, and a malformed payload is assumed not to occur.
- Reading a twin property converts only a value of the matching JSON kind: an integer for `int`, a string for `string`. Newtonsoft's cross-kind conversions, such as a numeric string read as an `int` or a float read as an `int`, are not modelled.
- A failed `SendEventAsync` is caught and ignored by the source. The log records every send attempt, whatever the transport did.
- Failures of `GetTwinAsync` and `UpdateReportedPropertiesAsync` are not modelled. They escape the telemetry cycle and end the device process.
- The controller's own `EmergencyStop` and `ResetErrorStatus` methods run inside the controller. The model logs the calls but not what they do to the nodes.
- `VirtualDeviceModel.VirtualDevice.SendTelemetry`: requires `Valid()`, that is, that every node exists and the DeviceError and ProductionRate nodes hold `int` values. `Convert.ToInt32` on other kinds of node value, and a missing node, are not modelled.
- `VirtualDeviceModel.VirtualDevice.InvokeMethod`: requires `Valid()` when the name selects SendTelemetry, for the reason above, and a readable rate node when it selects ReduceProductionRate. What the hub answers when a handler throws (the failed `(int)` cast at `VirtualDevice.cs:192`) is SDK behaviour and is not part of this model; `ReduceProductionRate` itself does model that failure. EmergencyStop, ResetErrorStatus, OnDesiredPropertyChanged and the default handler require nothing.
- The hub manager (`IoTHubManager`) is not part of this model. Its answer to each call is the `hub` parameter.
- Reading the method number with `Convert.ToInt32(Console.ReadLine())` is not modelled; the number is an input. A non-numeric line throws and ends the console.
- Loading `config.json` and computing the snapshot directory with `Directory.GetParent` are not modelled. Both happen outside the poll's `try` block, and the configured blob list is an input.
- `Kpi` is a `real`. Floating-point behaviour such as NaN, which fails `< 90.0`, is not modelled.
- The menu loop and process spawning (`ServiceSdkDemo.Console/Program.cs`), the one-second telemetry timer and the parent-process check (`DeviceSdkDemo.Console/Program.cs`), and the desktop blob browser (`BlobStorageDemo.Desktop/MainWindow.xaml.cs`) are not part of this model.
