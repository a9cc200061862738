# Sunshine watch face: forecast record and engine decisions, in Dafny

This project models the watch side of the Sunshine weather watch face:

- The forecast record (`ForecastDataItem`) that the phone keeps up to date.
- The translations from the phone's raw values to what the watch stores. A wind angle becomes one of eight compass directions. An OpenWeatherMap condition id becomes one of eight weather categories, and each category has an icon.
- The formatting choices of `Utilities`.
- The decisions the watch face engine takes:
  - which paired node to message;
  - how a synchronised data item is checked and merged into the stored forecast;
  - the two loops over incoming items;
  - the time-zone receiver flag;
  - the once-a-second timer;
  - ambient transitions;
  - the tap toggle.

The model has four modules:

- `Outcomes`: `Option`, standing for Java's `null`, and `Result`, standing for the `AssertionError` paths.
- `ForecastModel`, for `ForecastDataItem.java`. The record is a class with five `int` fields. `ExchangeDataIfDiffers` updates those fields in place. The wind-angle translation is a method with the source's `while` loop. It is proved equal to `WindDirectionOf`, a function that uses Euclidean `%`. The category and icon lookups are functions.
- `Formatting`, for `Utilities.java`. Direction labels, format resources and icons are enumerations instead of Android resource ids.
- `WatchFace`, for `SunshineWatchFace.java`:
  - `ProcessSpec` states, as a function on values, what handling one data item does to `SyncState`. `SyncState` holds the unit flag and the optional stored forecast.
  - `DataChangedSpec` and `ResultSpec` do the same for the two loops.
  - The `Engine` class holds the fields the source updates: `mRegisteredTimeZoneReceiver`, `mAmbient`, `showAlternative`, `isMetric` and `dataItem`. It also holds the framework's visibility flag and the prepared bottom-line values.
  - Each engine method is proved against these functions. `Engine.Valid()` is the object invariant. It says the stored forecast is well formed, that the prepared bottom line always matches the stored forecast and unit, and that the receiver flag mirrors the system's registrations. Every method keeps it.

Some inputs are calls the watch face cannot see, so they become parameters:

- `googleApiClient.isConnected()` becomes `connected` in `OnAmbientModeChanged`.
- `System.currentTimeMillis()` becomes `timeMs` in `HandleUpdateTimeMessage`.

Side effects become returned booleans:

- "request data from the phone"
- "invalidate"
- "start the timer"

The number of receiver registrations held by the system is a ghost field.

Java `int` and `long` are modelled as unbounded integers. The modelled code compares values, adds 360 to negative angles, takes `%` of non-negative angles and subtracts a remainder from 1000. None of these can overflow, so this is exact. Java's `/` on `long` truncates the quotient toward zero, and its `%` gives a remainder with the sign of the dividend, so `JavaQuotient` and `JavaRemainder` write them out. Because of this, the timer-delay facts hold for negative clock readings too.

`isInAmbientMode()` is modelled by `mAmbient`. `onAmbientModeChanged` sets both to the same value. `isVisible()` is modelled by the `visible` field, which `OnVisibilityChanged` sets. The timer rule "run iff visible and not ambient" is the predicate `Engine.ShouldTimerBeRunning`. The contracts of `OnVisibilityChanged`, `OnAmbientModeChanged` and `HandleUpdateTimeMessage` state it.

## Model

| member | source | states |
|---|---|---|
| `ForecastModel.ForecastDataItem.constructor` | wear/src/main/java/com/example/android/sunshine/app/ForecastDataItem.java:56-63 | the new record holds exactly the five arguments |
| `ForecastModel.ForecastDataItem.ExchangeDataIfDiffers` | wear/src/main/java/com/example/android/sunshine/app/ForecastDataItem.java:65-100 | afterwards all five fields equal the arguments; the result is true iff at least one argument differed from its stored field; when false, nothing changed |
| `ForecastModel.ExchangeTwice` | wear/src/main/java/com/example/android/sunshine/app/ForecastDataItem.java:65-100 | an immediate second exchange with the same arguments reports false and leaves the record as the first left it (idempotence) |
| `ForecastModel.SectorOf` | wear/src/main/java/com/example/android/sunshine/app/ForecastDataItem.java:113-129 | every angle in [0,360) maps to a direction constant 0..7 |
| `ForecastModel.WindDirectionOf` | wear/src/main/java/com/example/android/sunshine/app/ForecastDataItem.java:103-131 | every integer angle, negative ones included, gives a direction constant 0..7 |
| `ForecastModel.TranslateWindAngleToDirection` | wear/src/main/java/com/example/android/sunshine/app/ForecastDataItem.java:103-131 | the loop of `+= 360` terminates for every int, and the result equals the Euclidean-reduction definition, so it lies in NORTH..NORTH_WEST |
| `ForecastModel.NearestCompassPoint` | wear/src/main/java/com/example/android/sunshine/app/ForecastDataItem.java:113-129 | a direction is chosen iff its compass bearing (45·d) is within 22° of the reduced angle; every other compass point is at least 23° away |
| `ForecastModel.WindDirectionPeriodic` | wear/src/main/java/com/example/android/sunshine/app/ForecastDataItem.java:106-111 | angles a whole number of turns apart (a, a+360, a−360, …) give the same direction |
| `ForecastModel.WindBandEdges` | wear/src/main/java/com/example/android/sunshine/app/ForecastDataItem.java:113-129 | band edges with inclusive upper bounds: 22→N, 23→NE, 67/68, 112/113, 157/158, 202/203, 247/248, 292/293, 337→NW, 338 and 359→N, −1 and 360→N |
| `ForecastModel.TranslateWeatherIdToWeatherType` | wear/src/main/java/com/example/android/sunshine/app/ForecastDataItem.java:161-187 | total; every id maps to a weather type 1..8 |
| `ForecastModel.WeatherTypePreimage` | wear/src/main/java/com/example/android/sunshine/app/ForecastDataItem.java:161-187 | for each category, exactly which ids map to it (both directions): first match wins, so 761 is FOG, 511 SNOW, 781 STORM, and ids matching no range are CLEAR_SKY |
| `ForecastModel.GetWeatherTypeIconRes` | wear/src/main/java/com/example/android/sunshine/app/ForecastDataItem.java:134-158 | succeeds exactly on the eight weather types and fails with the unexpected value otherwise |
| `ForecastModel.IconRoundTrip` | wear/src/main/java/com/example/android/sunshine/app/ForecastDataItem.java:136-153 | icon lookup and its inverse round-trip both ways: each category has its own icon and each icon is used |
| `ForecastModel.IconsDistinct` | wear/src/main/java/com/example/android/sunshine/app/ForecastDataItem.java:136-153 | two different categories never share an icon |
| `ForecastModel.IconOfAnyWeatherId` | wear/src/main/java/com/example/android/sunshine/app/ForecastDataItem.java:134-187 | the icon lookup never fails on the category of any weather id |
| `Formatting.FormatWindDirection` | wear/src/main/java/com/example/android/sunshine/app/Utilities.java:51-74 | succeeds exactly on the direction constants 0..7; any other int fails with the unsupported direction |
| `Formatting.DirectionLabelRoundTrip` | wear/src/main/java/com/example/android/sunshine/app/Utilities.java:54-69 | label lookup and its inverse round-trip both ways: each direction has its own label and each label is used |
| `Formatting.DirectionLabelsDistinct` | wear/src/main/java/com/example/android/sunshine/app/Utilities.java:54-69 | no two directions share a label |
| `Formatting.AngleToLabelNeverFails` | wear/src/main/java/com/example/android/sunshine/app/Utilities.java:51-74 | every direction produced from an angle is accepted by the label lookup, so angle to label never fails |
| `Formatting.FormatTemperature` | wear/src/main/java/com/example/android/sunshine/app/Utilities.java:26-34 | the stored value passes through unconverted iff metric; otherwise it is marked for Fahrenheit conversion; the value is kept |
| `Formatting.FormatWindSpeed` | wear/src/main/java/com/example/android/sunshine/app/Utilities.java:36-49 | the km/h format is chosen iff metric, and the speed is converted only in the non-metric branch |
| `WatchFace.PickBestNodeId` | wear/src/main/java/com/example/android/sunshine/app/SunshineWatchFace.java:294-307 | the first nearby node's id if any node is nearby; otherwise the last node's id; no id exactly for an empty list |
| `WatchFace.IncomingForecast` | wear/src/main/java/com/example/android/sunshine/app/SunshineWatchFace.java:605-609 | the forecast built from an item with all five keys is well formed and carries the temperatures and speed unchanged |
| `WatchFace.ProcessSpec` | wear/src/main/java/com/example/android/sunshine/app/SunshineWatchFace.java:591-627 | handling an item reports a change exactly when the stored forecast changed, and keeps a well-formed store well formed |
| `WatchFace.ProcessCases` | wear/src/main/java/com/example/android/sunshine/app/SunshineWatchFace.java:593-623 | another path changes nothing and reports false; a carried unit flag is applied even when keys are missing; a missing key reports false with the forecast unchanged; with all keys the forecast becomes the translated item, and creating one reports true |
| `WatchFace.ProcessIdempotent` | wear/src/main/java/com/example/android/sunshine/app/SunshineWatchFace.java:591-627 | handling the same item twice: the second reports false and changes nothing |
| `WatchFace.DataChangedSpec` | wear/src/main/java/com/example/android/sunshine/app/SunshineWatchFace.java:644-663 | the data-changed loop reports a change exactly when the stored forecast differs afterwards |
| `WatchFace.ResultSpec` | wear/src/main/java/com/example/android/sunshine/app/SunshineWatchFace.java:669-683 | when the result loop reports no change, the forecast is unchanged |
| `WatchFace.DataChangedIgnoresLaterEvents` | wear/src/main/java/com/example/android/sunshine/app/SunshineWatchFace.java:648-658 | once the data-changed loop has seen a change, later events are never handled |
| `WatchFace.ResultSpecAppend` | wear/src/main/java/com/example/android/sunshine/app/SunshineWatchFace.java:672-678 | the result loop over a concatenation continues through the second part after a change in the first, and ORs the reports |
| `WatchFace.ResultIsOrOfItems` | wear/src/main/java/com/example/android/sunshine/app/SunshineWatchFace.java:672-678 | the result loop reports a change iff some item, handled in the state the loop reached, reports one |
| `WatchFace.LoopsDifferOnRevertedChange` | wear/src/main/java/com/example/android/sunshine/app/SunshineWatchFace.java:648-678 | on a change followed by its undo, the result loop reports a change with the forecast back where it began, while the data-changed loop stops after the first item |
| `WatchFace.UnitRedraw` | wear/src/main/java/com/example/android/sunshine/app/SunshineWatchFace.java:591-639 | handling an item redraws through the unit update exactly when it changes the unit flag |
| `WatchFace.DataChangedRedraws` | wear/src/main/java/com/example/android/sunshine/app/SunshineWatchFace.java:644-663 | the data-changed listener redraws whenever it reports a forecast change, and when it does not redraw, neither the unit nor the forecast changed |
| `WatchFace.ResultRedraws` | wear/src/main/java/com/example/android/sunshine/app/SunshineWatchFace.java:669-683 | the result callback redraws whenever it reports a forecast change, and when it does not redraw, neither the unit nor the forecast changed |
| `WatchFace.UnitOnlyItemRedraws` | wear/src/main/java/com/example/android/sunshine/app/SunshineWatchFace.java:591-639 | an item that only switches the unit reports no forecast change, yet both loops redraw the face for it |
| `WatchFace.JavaRemainder` | wear/src/main/java/com/example/android/sunshine/app/SunshineWatchFace.java:561-562 | Java's `%`: the remainder has the dividend's sign, magnitude below the divisor, and completes the truncated quotient |
| `WatchFace.UpdateDelay` | wear/src/main/java/com/example/android/sunshine/app/SunshineWatchFace.java:555-565 | `t + delay` is a multiple of 1000, and for `t >= 0` the delay lies in 1..1000 |
| `WatchFace.NextTickIsNextWholeSecond` | wear/src/main/java/com/example/android/sunshine/app/SunshineWatchFace.java:560-563 | for `t >= 0` the next tick is the first whole second strictly after `t` |
| `WatchFace.PrepareBottomLine` | wear/src/main/java/com/example/android/sunshine/app/SunshineWatchFace.java:230-265 | preparing the bottom line succeeds iff the forecast is well formed; the icon, direction label, temperatures and speed reflect the stored forecast; both temperatures are shown in Celsius, and the wind speed in km/h with the km/h format, each iff `isMetric` |
| `WatchFace.BottomLineDeterminesForecast` | wear/src/main/java/com/example/android/sunshine/app/SunshineWatchFace.java:230-265 | two prepared bottom lines are equal only for the same forecast and the same unit choice: nothing shown is lost |
| `WatchFace.Engine.constructor` | wear/src/main/java/com/example/android/sunshine/app/SunshineWatchFace.java:133-168 | all flags start false (imperial units) with no forecast stored |
| `WatchFace.Engine.RegisterReceiver` | wear/src/main/java/com/example/android/sunshine/app/SunshineWatchFace.java:364-373 | afterwards registered with exactly one system registration; a second call registers nothing more |
| `WatchFace.Engine.UnregisterReceiver` | wear/src/main/java/com/example/android/sunshine/app/SunshineWatchFace.java:375-383 | afterwards unregistered with no system registration; acts only when registered |
| `WatchFace.Engine.ShouldTimerBeRunning` | wear/src/main/java/com/example/android/sunshine/app/SunshineWatchFace.java:547-550 | the timer should run iff the face is visible and not in ambient mode |
| `WatchFace.Engine.OnVisibilityChanged` | wear/src/main/java/com/example/android/sunshine/app/SunshineWatchFace.java:329-352 | the receiver flag follows visibility, and the timer starts iff visible and not ambient |
| `WatchFace.Engine.HandleUpdateTimeMessage` | wear/src/main/java/com/example/android/sunshine/app/SunshineWatchFace.java:547-565 | the face is always redrawn; a next tick is scheduled iff visible and not ambient; its delay reaches a whole second, within 1..1000 ms for `t >= 0` |
| `WatchFace.Engine.OnAmbientModeChanged` | wear/src/main/java/com/example/android/sunshine/app/SunshineWatchFace.java:446-467 | `mAmbient` takes the new mode; data is requested iff leaving ambient while connected with no forecast stored; the face is redrawn iff the mode changed; the timer starts iff visible and not ambient |
| `WatchFace.Engine.OnTapCommand` | wear/src/main/java/com/example/android/sunshine/app/SunshineWatchFace.java:474-487 | a completed tap toggles `showAlternative` and redraws iff interactive; other tap kinds change nothing |
| `WatchFace.Engine.PrepareBottomLineFromItem` | wear/src/main/java/com/example/android/sunshine/app/SunshineWatchFace.java:235-265 | the bottom line is prepared from the stored forecast and the current unit |
| `WatchFace.Engine.UpdateIsMetricIfNeeded` | wear/src/main/java/com/example/android/sunshine/app/SunshineWatchFace.java:630-639 | `isMetric` takes the new flag; nothing is prepared again or redrawn when it is unchanged; the invariant (bottom line in the current unit) is kept |
| `WatchFace.Engine.ProcessItem` | wear/src/main/java/com/example/android/sunshine/app/SunshineWatchFace.java:591-627 | the engine's unit flag and stored forecast, and the result, are exactly as `ProcessSpec` says; the unit update's redraw is reported exactly as `UnitRedraw` says; a stored record is updated in place, a new one is fresh |
| `WatchFace.Engine.OnDataChanged` | wear/src/main/java/com/example/android/sunshine/app/SunshineWatchFace.java:644-663 | the loop with early `break` ends in the state, and with the report, that `DataChangedSpec` gives, and redraws exactly when `DataChangedRedraws` says |
| `WatchFace.Engine.OnResult` | wear/src/main/java/com/example/android/sunshine/app/SunshineWatchFace.java:669-683 | the loop over all items ends in the state, and with the ORed report, that `ResultSpec` gives, and redraws exactly when `ResultRedraws` says |

## Left out

- Rendering and layout are left out because they are canvas and paint calls with floating-point offsets. This covers `onDraw`, the pixel measurements in `prepareBottomLine`, `onApplyWindowInsets`, `createTextPaint`, `initResources` and the anti-aliasing switch in `onAmbientModeChanged`. The model keeps only the values the bottom line shows.
- The wearable transport is left out because it is foreign, asynchronous I/O. This covers `requestDataFromMobile`, `onConnected`, `releaseGoogleApiClient`, `onConnectionSuspended`, `onConnectionFailed`, `googleApiClient.connect()`, and the release of event and item buffers. A data request is a returned boolean.
- The handler and message queue are left out (`EngineHandler`, `removeMessages`, `sendEmptyMessage`, `sendEmptyMessageDelayed`). Only the should-run rule and the delay are modelled.
- Date and time formatting and wall-clock reads are left out because they are library calls. This covers `getFullFriendlyDayString`, `onTimeTick` and the `Calendar` updates.
- The Celsius→Fahrenheit and km/h→mph arithmetic is left out because it is floating point. The model records which conversion and which format resource is chosen.
- The time-zone receiver's `onReceive` (time-zone update and redraw) and the redraw in `onTimeTick` are left out. `HandleUpdateTimeMessage`, `OnAmbientModeChanged`, `OnTapCommand`, `UpdateIsMetricIfNeeded`, `ProcessItem`, `OnDataChanged` and `OnResult` return whether they redraw. The loops report whether they redraw at least once, not how many times.
- A data item's map holds only `int` entries here. The `is_metric_key` boolean is a separate optional field. A key holding a value of the wrong type is not modelled.
- The phone side (`DataRequestListenerService.java`) is not part of this model. `ForecastDataSet.java` has no behaviour, and its five values appear as the entries of a data item.
- `Formatting.FormatTemperature` and `Formatting.FormatWindSpeed` return which conversion applies instead of the formatted string, because the string comes from Android resources and floating-point formatting.
