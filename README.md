# Smart Farm Simulator — a Dafny model

Smart-Farm-Simulator plays a greenhouse. A closed-loop simulation holds:

- an environment of six values: temperature, humidity, soil moisture, light, oxygen and pH;
- the devices that act on that environment;
- the crops that grow in it.

On every tick a simulation runner calls five engines in a fixed order:

1. **Environment engine:** natural drift, clamped to realistic ranges.
2. **Device effect engine:** every switched-on device adds its catalogue effects, scaled by its level.
3. **Failure engine:** a random environmental shock, and sometimes one device switched off.
4. **Sensor engine:** readings rounded to two decimals, light to whole lux.
5. **Crop growth engine:** health, growth and yield of each crop.

Around the tick:

- A device manager keeps the devices keyed by UUID. It applies device commands from the backend or from a simple `{deviceId, status}` message. Missing backend devices are created, and a type is inferred from a device name.
- Two telemetry adapters turn the environment into payloads, one list per mapped sensor.

The repository also carries an older, simpler simulator with these parts:

- farm areas with a five-value environment and its drift;
- a weather table;
- a module-level device table with fixed effects;
- crops moving through named growth stages;
- a case-insensitive crop lookup;
- a sensor snapshot.

This project models both simulators:

- Values (environment records, device and crop records, payloads) are datatypes.
- Objects the source updates in place are classes whose methods are proved against specification functions. These are the environment, devices, crops, the device manager, the runner, the closed-loop simulation, the legacy farm area, crop and device table.
- The properties are proved as lemmas about those functions.

Conventions:

- Numbers are `real`. `Math.random()` draws are parameters of type `Draw`, which is a real in [0, 1), taken in the order the code takes them.
- `Math.round` is floor(x + 0.5).
- `toFixed(d)` is the rounded real the string denotes.
- A device or effect catalogue read from JSON files is a map given as a parameter.

## Model

| member | source | states |
|---|---|---|
| EnvironmentEngine.Rand | src/engines/EnvironmentEngine.ts:47-49 | the value drawn from `[min, max]` lies in [min, max), in (max, min] for an inverted pair, and is min for an empty one |
| EnvironmentEngine.Clamp | src/engines/EnvironmentEngine.ts:39-44 | the result is in the key's realistic range; a value already in range is kept; a value below goes to the lower bound; a value above a bounded key goes to the upper bound |
| EnvironmentEngine.Drifted | src/engines/EnvironmentEngine.ts:30-45 | every key of the environment after drift is in its realistic range |
| EnvironmentEngine.ApplyDrift | src/engines/EnvironmentEngine.ts:30-45 | the environment is updated in place to the drifted values |
| EnvironmentEngine.DriftedPerKey | src/engines/EnvironmentEngine.ts:31-44 | each key after drift depends only on its own value, its drift range and its own draw |
| EnvironmentEngine.NoUpperBoundOnLuxOrOxygen | src/engines/EnvironmentEngine.ts:42-43 | light and oxygen are only floored at 0 and never capped |
| EnvironmentEngine.DriftFixedPoint | src/engines/EnvironmentEngine.ts:30-45 | with zero drift, an environment already in range is left unchanged |
| DeviceEffectEngine.Delta | src/engines/DeviceEffectEngine.ts:32-37 | every key named in a model's effects moves by effect × scale; every other key moves by 0 |
| DeviceEffectEngine.Contribution | src/engines/DeviceEffectEngine.ts:24-36 | a device that is not ON, or has no model, contributes nothing; otherwise it contributes its effects scaled by `level ?? 1` |
| DeviceEffectEngine.AddEffects | src/engines/DeviceEffectEngine.ts:32-37 | the environment gains exactly the scaled effects |
| DeviceEffectEngine.Apply | src/engines/DeviceEffectEngine.ts:23-43 | the environment gains the summed contribution of all devices, and the devices are not changed |
| DeviceEffectEngine.TotalEffectConcat | src/engines/DeviceEffectEngine.ts:24-42 | the summed effect of two device lists is the sum of their effects |
| DeviceEffectEngine.TotalEffectPermutation | src/engines/DeviceEffectEngine.ts:24-42 | the order of the device list does not matter (any permutation gives the same effect) |
| DeviceEffectEngine.InertDeviceDroppable | src/engines/DeviceEffectEngine.ts:25-29 | removing a device that is off or has no model changes nothing |
| DeviceEffectEngine.LevelScaling | src/engines/DeviceEffectEngine.ts:35 | a missing level counts as full power, and level 0 gives no effect |
| DeviceEffectEngine.UnnamedKeyUnchanged | src/engines/DeviceEffectEngine.ts:32-37 | a key that no active model names is not moved by any device |
| DeviceEffectEngine.NormalizeTypeExample | src/engines/DeviceEffectEngine.ts:47 | type normalisation lower-cases and removes only the first underscore: GROW_LIGHT_2 gives growlight_2 |
| Text.IndexOf | src/engines/DeviceEffectEngine.ts:47 | gives the first position of a character, and -1 exactly when the character is absent |
| Text.RemoveFirst | src/engines/DeviceEffectEngine.ts:47 | string `replace` with a one-character pattern: a string without the character is returned as is; otherwise the first occurrence (and only it) is cut out, everything before and after it kept |
| Text.ToLowerUnderscore | src/engines/DeviceEffectEngine.ts:47 | lower-casing never creates or removes an underscore, position by position |
| DeviceEffectEngine.NormalizeType | src/engines/DeviceEffectEngine.ts:47 | a type without an underscore is just lower-cased; otherwise its first underscore is dropped and everything else is kept, lower-cased |
| DeviceEffectEngine.LoadModel | src/engines/DeviceEffectEngine.ts:45-54 | a model is found exactly when the catalog has an entry under the normalised type, and it is that entry |
| DeviceEffectEngine.LoadModelIgnoresCase | src/engines/DeviceEffectEngine.ts:47 | a type and its lower-cased form load the same model |
| DeviceEffectEngine.TotalEffect | src/engines/DeviceEffectEngine.ts:23-43 | a device list with no device ON adds nothing |
| FailureEngine.ShockThirds | src/engines/FailureEngine.ts:20-22 | the second draw picks soil drop, temperature spike or humidity drop on thirds of [0, 1) |
| FailureEngine.Shocked | src/engines/FailureEngine.ts:18-42 | no shock when the first draw is at or above the probability; at most one key changes; the allowed changes are soil −10 floored at 0, temperature +5, or humidity −15 floored at 0; light, oxygen and pH never change |
| FailureEngine.ShockFires | src/engines/FailureEngine.ts:19-40 | below the probability, the shock chosen by the second draw is applied |
| FailureEngine.Inject | src/engines/FailureEngine.ts:18-42 | the environment is updated in place to the shocked values |
| FailureEngine.FailureIndex | src/engines/FailureEngine.ts:48-49 | a device is picked exactly when the draw is below half the probability and the list is not empty; the index is in range |
| FailureEngine.FailedRecords | src/engines/FailureEngine.ts:47-55 | the list keeps its length; when a device is picked, its record is switched OFF; no other record differs |
| FailureEngine.InjectDeviceFailure | src/engines/FailureEngine.ts:47-55 | at most the picked device changes, and only from ON to OFF |
| FailureEngine.DeviceFailureOnlySwitchesOff | src/engines/FailureEngine.ts:47-55 | no device is switched on; at most one record changes, and only its status goes to OFF; nothing changes when no device is picked; a picked ON device ends OFF |
| SensorEngine.RoundAt | src/engines/SensorEngine.ts:31 | `Math.round(v·p)/p` is a whole number of 1/p steps and lies within half a step of v |
| SensorEngine.Round | src/engines/SensorEngine.ts:30-32 | rounding to d decimals gives a whole number of 10^−d steps, within half a step of the value |
| SensorEngine.RoundAtIdempotent | src/engines/SensorEngine.ts:30-32 | rounding an already rounded value changes nothing |
| SensorEngine.RoundFacts | src/engines/SensorEngine.ts:30-32 | rounding to d decimals is within 0.5·10^−d of the value |
| SensorEngine.RoundIdempotent | src/engines/SensorEngine.ts:30-32 | rounding to d decimals twice equals rounding once |
| SensorEngine.RoundExamples | src/engines/SensorEngine.ts:30-32 | 22.456 rounds to 22.46; 10234.7 rounds to 10235; halves round up, so −2.5 gives −2 |
| SensorEngine.ReadRounds | src/engines/SensorEngine.ts:12-21 | light is read at 0 decimals and every other key at 2 |
| SensorEngine.Read | src/engines/SensorEngine.ts:12-21 | light is rounded to a whole number and every other key lies within 0.005 of the environment value |
| SensorEngine.ReadSensor | src/engines/SensorEngine.ts:26-28 | a single reading is the value rounded to 2 decimals, within 0.005 of it |
| SensorEngine.ReadSensorAgreesWithRead | src/engines/SensorEngine.ts:12-28 | a single reading equals the full read for every key except light |
| SensorEngine.ReadSensorKeepsLuxDecimals | src/engines/SensorEngine.ts:17-27 | for light the two disagree (0.25 lux reads 0.25 alone and 0 in the full read) |
| SensorEngine.ReadIdempotent | src/engines/SensorEngine.ts:12-21 | reading a reading gives the same reading |
| CropGrowthEngine.HealthDelta | src/engines/CropGrowthEngine.ts:53-86 | the delta is 0.2 minus the decay rate for each out-of-range key, with light counting half |
| CropGrowthEngine.HealthDeltaAllInRange | src/engines/CropGrowthEngine.ts:53-86 | inside every optimal range the delta is +0.2 |
| CropGrowthEngine.NoRangeNoPenalty | src/engines/CropGrowthEngine.ts:57-83 | a model without ranges never penalises |
| CropGrowthEngine.Evaluated | src/engines/CropGrowthEngine.ts:30-51 | an unknown crop is untouched; otherwise health stays in [0, 100], growth never exceeds 1, and yield = growth × health |
| CropGrowthEngine.GrowthMonotone | src/engines/CropGrowthEngine.ts:43-44 | with a non-negative growth rate, growth never decreases |
| Numeric.Max | src/engines/CropGrowthEngine.ts:40 | `Math.max`: at least both arguments, and one of them |
| Numeric.Min | src/engines/CropGrowthEngine.ts:40-44 | `Math.min`: at most both arguments, and one of them |
| Numeric.MathRound | src/engines/SensorEngine.ts:31 | `Math.round` gives the integer within half of x, a half rounded up |
| Numeric.ToFixed | src/adapters/TelemetryAdapter.ts:53 | `toFixed(d)` keeps the sign and moves the value by at most half of 10^−d |
| CropGrowthEngine.HealthClamped | src/engines/CropGrowthEngine.ts:40 | the new health is 0 when the old health plus the delta is negative, 100 when it exceeds 100, and exactly that sum in between |
| CropGrowthEngine.NoHealthNoGrowth | src/engines/CropGrowthEngine.ts:40-47 | a crop whose health drops to 0 keeps its growth stage (capped at 1) and its yield becomes 0 |
| CropGrowthEngine.GrowthFallsWithHealth | src/engines/CropGrowthEngine.ts:40-44 | with a non-negative growth rate, a less healthy crop at the same stage ends with no more health and no more growth ("slower if health is poor") |
| CropGrowthEngine.LoadCropModel | src/engines/CropGrowthEngine.ts:88-97 | the model is found exactly when the catalog holds the lower-cased crop type, and is that entry |
| CropGrowthEngine.LoadCropModelIgnoresCase | src/engines/CropGrowthEngine.ts:90 | the crop lookup gives the same model for a type and its lower-cased form |
| CropGrowthEngine.Evaluate | src/engines/CropGrowthEngine.ts:30-51 | the crop is updated in place to its evaluated values |
| SimulationRunner.Runner.constructor | src/simulation/SimulationRunner.ts:25-31 | the runner keeps the failure probability and the engines' models |
| SimulationRunner.Runner.Tick | src/simulation/SimulationRunner.ts:37-67 | the environment goes through drift, then device effects, then shock; the readings are the sensor read of the result; devices change only by the failure engine; each crop is evaluated against the final environment; the callback receives the readings and the crops |
| SimulationRunner.Runner.RunEngines | src/simulation/SimulationRunner.ts:43-54 | engine steps 1–4 of a tick, with the same environment and device results |
| SimulationRunner.Runner.ShiftEnvironment | src/simulation/SimulationRunner.ts:43-50 | the environment after drift, device effects and shock |
| SimulationRunner.Runner.EvaluateCrops | src/simulation/SimulationRunner.ts:57-59 | each crop is evaluated against the same environment |
| SimulationRunner.OrNumber | src/simulation/SimulationRunner.ts:88-93 | a configured value is used unless it is missing or 0 (JavaScript `\|\|`) |
| SimulationRunner.CreateInitialEnvironment | src/simulation/SimulationRunner.ts:73-106 | no initial value is ever 0; without a configuration the fallback values are used; a configured non-zero value is kept; a missing or zero value gives its default: temperature 22, humidity 60, soil moisture 50, light 10000, oxygen 21, pH 5.0 |
| SimulationRunner.InitialDefaults | src/simulation/SimulationRunner.ts:73-106 | an empty or all-zero configuration gives pH 5.0; a missing configuration gives pH 7.0; the other keys give 22, 60, 50, 10000 and 21 in both cases |
| SimulationTelemetryAdapter.Reading | src/core/SimulationTelemetryAdapter.ts:75-81 | a missing value gives no payload; a present one gives one payload with its value to 2 decimals |
| SimulationTelemetryAdapter.CreateTelemetry | src/core/SimulationTelemetryAdapter.ts:64-141 | each sensor gets at most one payload, stamped with the tick's timestamp |
| SimulationTelemetryAdapter.CompleteEnvironmentDispatch | src/core/SimulationTelemetryAdapter.ts:72-138 | on a complete environment every sensor id yields exactly one payload: pH Level for 1, Solution Temperature for 2, Water Temperature for 3, DO Saturation (oxygen) for 4, Tank Capacity (soil moisture / 10, rounded) for 5, and Temperature for any other id |
| SimulationTelemetryAdapter.MissingFieldSendsNothing | src/core/SimulationTelemetryAdapter.ts:72-138 | a sensor whose field is missing gets nothing |
| SimulationTelemetryAdapter.SensorIdOf | src/core/SimulationTelemetryAdapter.ts:42-43 | a context has a sensor exactly when its UUID is mapped to a non-zero id |
| SimulationTelemetryAdapter.ContextPlan | src/core/SimulationTelemetryAdapter.ts:42-46 | an unmapped context gets no payload; a mapped one gets at most one |
| SimulationTelemetryAdapter.Plan | src/core/SimulationTelemetryAdapter.ts:41-57 | every planned send goes to one of the contexts considered so far, and only to one that has a sensor id |
| SimulationTelemetryAdapter.SendEnvironmentReadings | src/core/SimulationTelemetryAdapter.ts:21-58 | the sends tried are exactly the planned payloads, context by context in order; each attempt records whether its send succeeded |
| SimulationTelemetryAdapter.SendEach | src/core/SimulationTelemetryAdapter.ts:49-56 | every payload is tried once, in order, whatever the earlier attempts returned |
| SimulationTelemetryAdapter.SkippedContextSendsNothing | src/core/SimulationTelemetryAdapter.ts:43 | an unmapped context adds nothing to the plan |
| SimulationTelemetryAdapter.PlanLength | src/core/SimulationTelemetryAdapter.ts:41-57 | at most one payload per mapped context, and exactly one each for a complete environment |
| TelemetryAdapter.Formatted | src/adapters/TelemetryAdapter.ts:50-53 | a defined reading is formatted with the given decimals, and an undefined one is skipped |
| TelemetryAdapter.Channels | src/adapters/TelemetryAdapter.ts:50-88 | the five named channels in the fixed order: Temperature, Humidity, Soil Moisture, Light Lux, Oxygen PPM |
| TelemetryAdapter.Emitted | src/adapters/TelemetryAdapter.ts:43-91 | never more payloads than channels |
| TelemetryAdapter.MapEnvironmentToTelemetry | src/adapters/TelemetryAdapter.ts:43-91 | the payloads built are the emitted channels of the readings |
| TelemetryAdapter.EmittedCount | src/adapters/TelemetryAdapter.ts:50-88 | one payload per defined reading |
| TelemetryAdapter.EmittedInOrder | src/adapters/TelemetryAdapter.ts:50-88 | the payloads are the defined channels, in channel order, with their names and formatted values |
| TelemetryAdapter.PHNeverEmitted | src/adapters/TelemetryAdapter.ts:43-91 | pH never affects the payloads |
| TelemetryAdapter.CompleteReadings | src/adapters/TelemetryAdapter.ts:50-88 | complete readings give five payloads; light uses 0 decimals and the others 2 |
| TelemetryAdapter.SendSensorReadings | src/adapters/TelemetryAdapter.ts:21-38 | the lines logged are the name and value of each built payload, once per context with a non-zero sensor id, in context order |
| TelemetryAdapter.LogEach | src/adapters/TelemetryAdapter.ts:31-36 | one line per payload, in order |
| TelemetryAdapter.Lines | src/adapters/TelemetryAdapter.ts:35 | each line shows the payload's variable name and value |
| TelemetryAdapter.LinesIgnoreClock | src/adapters/TelemetryAdapter.ts:35-88 | the lines logged do not depend on the times the payloads were stamped with |
| TelemetryAdapter.MappedCount | src/adapters/TelemetryAdapter.ts:24-25 | never more mapped contexts than contexts |
| TelemetryAdapter.Reports | src/adapters/TelemetryAdapter.ts:21-38 | one copy of the lines per context with a non-zero sensor id, and nothing that is not one of those lines |
| TelemetryAdapter.ReportsConcat | src/adapters/TelemetryAdapter.ts:23-37 | the contexts are handled one after the other, each adding its own lines |
| TelemetryAdapter.UnmappedNeverReported | src/adapters/TelemetryAdapter.ts:24-25 | a context whose UUID has no non-zero sensor id adds no line, wherever it stands in the list |
| DeviceManager.ParseNewValue | src/core/DeviceManager.ts:40-47 | ON exactly for on/true/1 and OFF exactly for off/false/0, ignoring case; anything else gives no status |
| DeviceManager.ParseNewValueExamples | src/core/DeviceManager.ts:40-47 | "ON" gives ON, "False" gives OFF, and "yes" gives nothing |
| DeviceManager.InferDeviceType | src/core/DeviceManager.ts:135-158 | one iff per type: WATER_PUMP exactly when the lower-cased name mentions a pump keyword, FAN exactly when no pump keyword and a fan keyword, and so on down the keyword order to GROW_LIGHT; UNKNOWN exactly when no keyword occurs |
| DeviceManager.RedundantKeywords | src/core/DeviceManager.ts:138-153 | "water pump" and "grow light" are subsumed by "pump" and "light" |
| DeviceManager.SpaceHeaterIsAC | src/core/DeviceManager.ts:141-148 | keyword order makes "Space Heater" an AC, because "space" contains "ac" |
| DeviceManager.GrowLightExample | src/core/DeviceManager.ts:153 | "LED Light" is a grow light |
| DeviceManager.Resolve | src/core/DeviceManager.ts:36-82 | backend format (with metadata): creates missing devices, no level, status parsed from `newValue`, type from the command or the metadata, else inferred from a non-empty `deviceName`; simple format: nothing created, and status, level and type exactly as given |
| DeviceManager.Reconcile | src/core/DeviceManager.ts:29-109 | the update applies exactly when there is an id and it is known, or it is a backend id that no record carries; when it does not apply the table is unchanged, when it does the keys gain at most that id |
| DeviceManager.BackendCreatesNamedDevice | src/core/DeviceManager.ts:36-75 | the backend command `{deviceUuid: "x9", metadata: {newValue: "ON", deviceName: "Grow Light 2"}}` on an empty table creates x9 as an ON grow light at level 0 and applies |
| DeviceManager.GrowLight2Inferred | src/core/DeviceManager.ts:135-158 | "Grow Light 2" is inferred to be a grow light |
| DeviceManager.UuidSearchIsDead | src/core/DeviceManager.ts:58-64 | in a table keyed by UUID, an id that is not a key is no device's UUID, so the search never finds anything |
| DeviceManager.NoIdentifierRefused | src/core/DeviceManager.ts:84-87 | a command without any identifier changes nothing and is refused |
| DeviceManager.IdPrecedence | src/core/DeviceManager.ts:36-78 | backend: `deviceUuid` wins over `metadata.deviceUuid`; simple: `deviceId` wins over `deviceUuid` |
| DeviceManager.BackendCreatesUnknown | src/core/DeviceManager.ts:58-75 | an unknown backend id creates a device: its type comes from the command or is UNKNOWN, its status from the command or OFF, and its level is 0 |
| DeviceManager.SimpleUnknownRefused | src/core/DeviceManager.ts:89-93 | an unknown id in a simple command changes nothing and is refused |
| DeviceManager.KnownIdUpdatesSuppliedFields | src/core/DeviceManager.ts:95-105 | a known device gets exactly the supplied status, level and type, and keeps the rest |
| DeviceManager.OthersUnchanged | src/core/DeviceManager.ts:29-109 | no other device changes |
| DeviceManager.ReconcileKeepsKeying | src/core/DeviceManager.ts:29-109 | every device stays under its own UUID |
| DeviceManager.InitializedKeys | src/core/DeviceManager.ts:12-21 | after initialisation the keys are the old keys plus the listed ids |
| DeviceManager.Initialized | src/core/DeviceManager.ts:12-21 | initialisation keeps every old key and files every listed device OFF at level 0 |
| DeviceManager.InitializedLastWins | src/core/DeviceManager.ts:12-21 | the last listing of an id wins, and that device is OFF |
| DeviceManager.InitializedElsewhere | src/core/DeviceManager.ts:12-21 | devices not listed are kept |
| DeviceManager.InitializedKeepsKeying | src/core/DeviceManager.ts:12-21 | initialisation keeps every device under its own UUID |
| DeviceManager.DeviceManager.constructor | src/core/DeviceManager.ts:7 | the device map starts empty |
| DeviceManager.DeviceManager.Initialize | src/core/DeviceManager.ts:12-21 | the table becomes the initialised table, and the insertion order becomes the old order followed by each new listed id at its first write |
| DeviceManager.InitializedOrder | src/core/DeviceManager.ts:12-21 | the old order is kept as a prefix; the order holds exactly the old keys and the listed ids, each once when the old order had no repeats |
| DeviceManager.DeviceManager.Put | src/core/DeviceManager.ts:14-19 | map set: the key is replaced in place or added at the end of the insertion order |
| DeviceManager.DeviceManager.FindByUuid | src/core/DeviceManager.ts:60-62 | finds a device with that UUID, or reports none exactly when no device has it |
| DeviceManager.DeviceManager.UpdateDevice | src/core/DeviceManager.ts:29-109 | the table and the result are those of the command's reconciliation; existing device objects are kept; at most one key is appended |
| DeviceManager.DeviceManager.WriteRequest | src/core/DeviceManager.ts:84-105 | applied exactly when the id is present and known; only that device changes |
| DeviceManager.DeviceManager.CreateMissing | src/core/DeviceManager.ts:58-75 | adds one fresh device under the id, with the defaults, and keeps the others |
| DeviceManager.DeviceManager.Write | src/core/DeviceManager.ts:95-105 | the device gets the supplied fields |
| DeviceManager.DeviceManager.AllDevices | src/core/DeviceManager.ts:114-116 | every device once, in insertion order |
| DeviceManager.DeviceManager.GetDevice | src/core/DeviceManager.ts:121-123 | the device under the UUID, or none exactly when absent |
| DeviceManager.DeviceManager.GetDevicesByType | src/core/DeviceManager.ts:128-130 | exactly the devices of that type, each once, in insertion order |
| DeviceManager.OfType | src/core/DeviceManager.ts:129 | the filter keeps exactly the elements of the type, and a list without repeats gives one without repeats |
| DeviceManager.OfTypeConcat | src/core/DeviceManager.ts:129 | filtering a concatenation is concatenating the filtered parts |
| DeviceManager.OfTypeSingle | src/core/DeviceManager.ts:129 | a one-element list keeps its element exactly when it has the type |
| DeviceManager.OfTypeInOrder | src/core/DeviceManager.ts:129 | the filtered elements appear in the order they have in the list |
| DeviceManager.Shifted | src/core/DeviceManager.ts:129 | every position moved one further on |
| DeviceManager.PicksShifted | src/core/DeviceManager.ts:129 | positions picked from a list's tail are, one further on, positions in the list |
| DeviceManager.PicksHead | src/core/DeviceManager.ts:129 | the head followed by later picks is still an increasing pick |
| ClosedLoopSimulation.TickDevices | src/core/ClosedLoopSimulation.ts:121-134 | one tick of the runner on the device list |
| ClosedLoopSimulation.ClosedLoopSimulation.constructor | src/core/ClosedLoopSimulation.ts:29-48 | starts with the initial environment, the configured devices initialised OFF in the order of their first listing, a runner with failure probability 0.01, the given contexts and sensor map, not running, no timer and no handler |
| ClosedLoopSimulation.ClosedLoopSimulation.SetDeviceCommandHandler | src/core/ClosedLoopSimulation.ts:53-55 | installs the handler and changes nothing else |
| ClosedLoopSimulation.ClosedLoopSimulation.ProcessDeviceCommand | src/core/ClosedLoopSimulation.ts:60-69 | the device table follows the command's reconciliation; the handler is notified exactly when the command applied and a handler is installed; the environment is not touched |
| ClosedLoopSimulation.ClosedLoopSimulation.Start | src/core/ClosedLoopSimulation.ts:74-96 | a second start changes nothing; a first start marks the simulation running, runs one tick at once and keeps a timer |
| ClosedLoopSimulation.ClosedLoopSimulation.Begin | src/core/ClosedLoopSimulation.ts:80-95 | the first tick, followed by telemetry for its environment |
| ClosedLoopSimulation.ClosedLoopSimulation.Stop | src/core/ClosedLoopSimulation.ts:101-110 | not running afterwards; a running simulation drops its timer |
| ClosedLoopSimulation.ClosedLoopSimulation.RunTick | src/core/ClosedLoopSimulation.ts:115-149 | one runner tick on the manager's devices, then telemetry sent for the new environment |
| ClosedLoopSimulation.ClosedLoopSimulation.GetEnvironment | src/core/ClosedLoopSimulation.ts:154-156 | a fresh copy equal to the environment |
| ClosedLoopSimulation.ClosedLoopSimulation.GetDevices | src/core/ClosedLoopSimulation.ts:161-163 | the manager's device list |
| CropLoader.ChooseCrop | src/core/CropLoader.ts:34-39 | a found profile is in the list and its name matches, ignoring case; none exactly when no profile matches |
| CropLoader.ChooseCropFirst | src/core/CropLoader.ts:36-38 | the first matching profile is chosen |
| CropLoader.ChooseCropIgnoresCase | src/core/CropLoader.ts:37 | names equal up to case choose the same profile |
| CropLoader.ChooseCropLowered | src/core/CropLoader.ts:37 | lower-casing the name first changes nothing |
| Text.ToLowerIdempotent | src/core/CropLoader.ts:37 | lower-casing twice equals lower-casing once |
| LegacyCrop.Advanced | src/core/Crop.ts:17-25 | nothing happens without acceleration; the stage index grows by at most 1, and grows exactly when the next day reaches a positive duration; a new stage starts at day 0; otherwise the day count grows by 1 |
| LegacyCrop.AdvanceKeepsSettled | src/core/Crop.ts:19-24 | a settled crop stays settled for one day: its index stays within the number of durations, and it has spent fewer days than a positive duration |
| LegacyCrop.AdvancedDays | src/core/Crop.ts:17-25 | n days move the stage index forward by at most n |
| LegacyCrop.SettledAfterDays | src/core/Crop.ts:19-24 | a settled crop stays settled for any number of days; its index never passes the number of durations |
| LegacyCrop.FreshSettled | src/core/Crop.ts:6-7 | a new crop is settled |
| LegacyCrop.StageLasts | src/core/Crop.ts:19-24 | a whole-number duration k is left after exactly the k − d remaining days, and not earlier |
| LegacyCrop.StageNeverLeft | src/core/Crop.ts:21 | a stage with a duration that is 0, negative or missing is never left; only its day count grows |
| LegacyCrop.StageName | src/core/Crop.ts:13-15 | a stage name exactly while the index is within the list |
| LegacyCrop.OptimalEnvAt | src/core/Crop.ts:27-29 | for a listed stage, an entry exactly when the stage has one, and the entry comes from the table |
| LegacyCrop.OptimalEnvOfStage | src/core/Crop.ts:27-29 | the entry returned is the one under the stage name |
| LegacyCrop.OptimalEnvPastEnd | src/core/Crop.ts:27-29 | past the last stage the empty record is returned, unless a stage is named "undefined" |
| LegacyCrop.Crop.constructor | src/core/Crop.ts:9-11 | a new crop is at stage 0, day 0 |
| LegacyCrop.Crop.AdvanceDay | src/core/Crop.ts:17-25 | the crop's progress becomes the advanced progress |
| FarmEnvironment.Drifted | src/core/Environment.ts:25-30 | temperature moves by less than 0.5 either way, humidity by less than 1, soil only falls and by less than 0.4, light moves by less than 250, and oxygen is unchanged |
| FarmEnvironment.DriftReaches | src/core/Environment.ts:25-30 | the drift bounds are tight: every value inside them is some drift |
| FarmEnvironment.FarmArea.constructor | src/core/Environment.ts:12-19 | a new area has no crops and the default environment 25, 65, 50, 14000, 21000 |
| FarmEnvironment.FarmArea.AddCrop | src/core/Environment.ts:21-23 | the crop is appended |
| FarmEnvironment.FarmArea.UpdateDrift | src/core/Environment.ts:25-30 | the environment becomes its drift |
| Weather.RandomWeather | src/core/Weather.ts:11-14 | the weather is one of the five types |
| Weather.RandomWeatherBucket | src/core/Weather.ts:11-14 | type i is drawn exactly on [i/5, (i+1)/5) |
| Weather.RandomWeatherOnto | src/core/Weather.ts:11-14 | every type can be drawn |
| Weather.EffectOf | src/core/Weather.ts:17-23 | every weather moves temperature, humidity and light; Clear and Heatwave exactly are the ones that warm, brighten and dry |
| Weather.Weathered | src/core/Weather.ts:16-27 | weather never changes soil moisture or oxygen |
| Weather.ApplyWeather | src/core/Weather.ts:16-27 | the environment becomes its weathered values |
| Weather.WeatherWarms | src/core/Weather.ts:17-23 | temperature rises exactly under Clear and Heatwave, and falls exactly under the other three |
| Weather.WeatherMoistens | src/core/Weather.ts:17-23 | humidity rises exactly under Cloudy, Rainy and ColdSnap |
| Weather.WeatherCommutes | src/core/Weather.ts:24-26 | two weathers give the same result in either order |
| Weather.WeatherUnclamped | src/core/Weather.ts:24-26 | nothing is clamped, so light and humidity can go negative |
| LegacyDevices.Initialized | src/core/DeviceState.ts:12 | every listed id is in the initial table, and every record is filed under its own id and switched off |
| LegacyDevices.InitialOrder | src/core/DeviceState.ts:12 | the key order lists each key of the initial table exactly once, and no more keys than entries |
| LegacyDevices.InitializedKeys | src/core/DeviceState.ts:12 | the keys are exactly the listed ids |
| LegacyDevices.InitializedLastWins | src/core/DeviceState.ts:12 | a repeated id keeps its last listing |
| LegacyDevices.DeviceTable.constructor | src/core/DeviceState.ts:12 | the table built by the loop is the initial table |
| LegacyDevices.DeviceDelta | src/core/DeviceState.ts:16-23 | a device that is off changes nothing, and no device changes oxygen |
| LegacyDevices.InOrder | src/core/DeviceState.ts:15 | iteration yields no more records than keys in the order, and only records of the table |
| LegacyDevices.InOrderComplete | src/core/DeviceState.ts:15 | over an order listing keys of the table once each, iteration yields exactly the record of every key, in that order |
| LegacyDevices.StartupYieldsEveryDevice | src/core/DeviceState.ts:12-15 | every record of the start-up table is yielded by its iteration |
| LegacyDevices.InOrderConcat | src/core/DeviceState.ts:15 | iterating a concatenation of key orders concatenates the records |
| LegacyDevices.InOrderPermutation | src/core/DeviceState.ts:15 | two key orders that are permutations of each other yield the same records, up to order |
| LegacyDevices.DistinctMultiplicity | src/core/DeviceState.ts:12 | a key order without repeats holds each of its keys once |
| LegacyDevices.KeyOrderIrrelevant | src/core/DeviceState.ts:14-24 | any two orders listing the same keys once each give the same total change |
| LegacyDevices.ApplyDeviceEffects | src/core/DeviceState.ts:14-25 | the environment gains the summed delta of the table's devices, and the table is not changed |
| LegacyDevices.ApplyDevice | src/core/DeviceState.ts:16-23 | the environment gains the device's delta |
| LegacyDevices.TotalDelta | src/core/DeviceState.ts:14-24 | the summed change of the devices never touches oxygen |
| LegacyDevices.AllOffInert | src/core/DeviceState.ts:16 | devices that are all off change nothing |
| LegacyDevices.StartupInert | src/core/DeviceState.ts:12-16 | the freshly initialised table changes nothing |
| LegacyDevices.ConfiguredDeltas | src/core/DeviceState.ts:17-23 | the delta of each configured device when switched on |
| LegacyDevices.AllConfiguredOn | src/core/DeviceState.ts:17-23 | with the five configured devices on: temperature +0.5, humidity −1, soil +2.5, light +5000 |
| LegacyDevices.TotalDeltaConcat | src/core/DeviceState.ts:15-24 | the delta of two lists is the sum of their deltas |
| LegacyDevices.TotalDeltaPermutation | src/core/DeviceState.ts:15-24 | iteration order does not matter |
| LegacyDevices.InertDeviceDroppable | src/core/DeviceState.ts:16-23 | a device that is off, or of an unknown type, can be dropped |
| Sensors.ReadSensors | src/core/Sensors.ts:3-11 | the reading copies the five values exactly |
| Sensors.ReadThenDrift | src/core/Sensors.ts:3-11 | a reading is a snapshot that a later drift does not reach; reading again gives the drifted values |

## Left out

- File I/O is not modelled. This covers the JSON catalogues for drift, devices and crops (their contents are parameters), `loadCrops`, `simulation.json`, and the `require` fallback in `createInitialEnvironment`. The configuration is an optional parameter: `None` stands for the catch branch.
- Timers are not modelled. `setInterval` and `clearInterval` become a timer handle recorded and dropped, and the repeated ticks are successive `RunTick` calls.
- Several side effects are not modelled: console logging, clocks (the timestamp or clock is a parameter), and the transport behind `TelemetryService.sendPayload` (a send function whose result is recorded).
- Asynchronous execution is not modelled. Each `await` is taken in program order, with no interleaving of a tick and a device command.
- The callbacks are not called. They are a flag plus the record of what they receive: the readings and crops for the tick callback, and the applied commands for the device-command handler.
- IEEE-754 doubles are not modelled: numbers are exact reals.
- `toFixed` strings are not modelled: a payload value is the rounded real the string denotes, rounded half away from zero.
- `toLowerCase` lower-cases only ASCII letters.
- Device statuses other than ON/OFF, `newValue` values that are not strings, and `level` values that are not numbers are outside the model.
- The `try`/`catch` blocks around crop evaluation, device effects and the whole of `runTick` (src/core/ClosedLoopSimulation.ts:116, 146-148) are not modelled. Their bodies cannot throw once files and JSON are parameters.
- Effect keys that are not environment fields are left out, since `key in env` rejects them.
- The `envToTelemetry` map and the `sensorMapping` argument of `sendEnvironmentReadings` are not modelled. The source builds or takes them and never reads them.
- The TelemetryAdapter's "would send" messages are modelled as the list of (variable name, value) lines it logs; the console itself is not modelled. The payloads' `recievedAt` times come from a clock parameter indexed by context and push, and do not appear in the log.
- FailureEngine.InjectDeviceFailure: its list-level ensures assumes the device objects are distinct. The source shares one object per UUID, so an aliased list is not covered. SimulationRunner.Runner.Tick and SimulationRunner.Runner.EvaluateCrops make the same assumption about devices and crops.
- The device manager's `Map` is a key map plus an insertion-order sequence. JavaScript `Map` keeps insertion order, so this is exact.
- The legacy device table is a plain object, and JavaScript lists integer-like keys first. That ordering is not modelled; insertion order is used. This is enough: `KeyOrderIrrelevant` proves that any two orders listing the same keys once each give the same summed delta.
- ClosedLoopSimulation.ClosedLoopSimulation.Begin: records the timer before the first tick rather than after it. Nothing in the tick reads the timer.
- LegacyCrop.Crop.AdvanceDay: time acceleration is a parameter. The configured value is `true` (src/config/config.ts:114).
- The legacy loop in src/core/SimulationRunner.ts, the socket and protocol layers, authentication, the payload builder and the rest of the transport are not part of this model.
