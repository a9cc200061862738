/** The decision logic of the Sunshine watch face engine, separated from the
    canvas and from the wearable transport: which paired node to message,
    how an incoming data item is validated and merged into the stored
    forecast, the two loops over incoming items, the time-zone receiver flag,
    the interactive timer, ambient transitions and the tap toggle. */
module WatchFace {
  import opened Outcomes
  import opened ForecastModel
  import opened Formatting

  // ---------------------------------------------------------------------------
  // Node selection
  // ---------------------------------------------------------------------------

  /** A paired device as the node list reports it. */
  datatype Node = Node(id: string, isNearby: bool)

  /** No node before position `n` is nearby. */
  predicate NoneNearbyBefore(nodes: seq<Node>, n: int)
    requires 0 <= n <= |nodes|
  {
    forall j :: 0 <= j < n ==> !nodes[j].isNearby
  }

  /** Nearby-first selection: the first nearby node wins; with none nearby the
      last node visited is kept; an empty list gives no id (`null`). */
  method PickBestNodeId(nodes: seq<Node>) returns (bestNodeId: Option<string>)
    ensures bestNodeId.None? <==> nodes == []
    ensures forall k :: 0 <= k < |nodes| && nodes[k].isNearby && NoneNearbyBefore(nodes, k) ==>
      bestNodeId == Some(nodes[k].id)
    ensures nodes != [] && NoneNearbyBefore(nodes, |nodes|) ==> bestNodeId == Some(nodes[|nodes| - 1].id)
  {
    bestNodeId := None;
    for i := 0 to |nodes|
      invariant NoneNearbyBefore(nodes, i)
      invariant bestNodeId.None? <==> i == 0
      invariant i > 0 ==> bestNodeId == Some(nodes[i - 1].id)
    {
      if nodes[i].isNearby {
        return Some(nodes[i].id);
      }
      bestNodeId := Some(nodes[i].id);
    }
  }

  // ---------------------------------------------------------------------------
  // Data items and the merge of one item
  // ---------------------------------------------------------------------------

  const SUNSHINE_CONFIG := "/sunshine_wear_config"
  const WEATHER_TYPE_KEY := "weather_type_key"
  const MAX_TEMP_KEY := "max_temperature_key"
  const MIN_TEMP_KEY := "min_temperature_key"
  const WIND_ANGLE_KEY := "wind_angle_key"
  const WIND_SPEED_KEY := "wind_speed_key"

  /** A synchronised data item: its path, its integer entries, and the
      `is_metric_key` boolean when the item carries one. */
  datatype DataItem = DataItem(path: string, ints: map<string, int>, isMetric: Option<bool>)

  datatype EventType = TypeChanged | TypeDeleted

  datatype DataEvent = DataEvent(eventType: EventType, item: DataItem)

  /** The part of the engine's state that incoming items can change. */
  datatype SyncState = SyncState(isMetric: bool, forecast: Option<ForecastData>)

  /** The state after handling an item (or items), and whether the forecast
      was reported as changed. */
  datatype Processed = Processed(state: SyncState, differs: bool)

  predicate HasAllKeys(ints: map<string, int>) {
    && MAX_TEMP_KEY in ints && MIN_TEMP_KEY in ints && WEATHER_TYPE_KEY in ints
    && WIND_ANGLE_KEY in ints && WIND_SPEED_KEY in ints
  }

  /** The forecast an item with all five keys describes, with the raw weather
      id and wind angle translated. */
  function IncomingForecast(ints: map<string, int>): (f: ForecastData)
    requires HasAllKeys(ints)
    ensures WellFormed(f)
    ensures f.maxTemp == ints[MAX_TEMP_KEY] && f.minTemp == ints[MIN_TEMP_KEY]
    ensures f.windSpeed == ints[WIND_SPEED_KEY]
  {
    ForecastData(
      TranslateWeatherIdToWeatherType(ints[WEATHER_TYPE_KEY]),
      ints[MAX_TEMP_KEY], ints[MIN_TEMP_KEY],
      WindDirectionOf(ints[WIND_ANGLE_KEY]),
      ints[WIND_SPEED_KEY])
  }

  /** Handling one data item: items on another path are ignored; a carried
      unit flag is applied; an item missing any of the five keys changes no
      forecast; otherwise the forecast is created, or merged by
      compare-and-update. The report is true exactly when the stored forecast
      changed, and a well-formed store stays well-formed. */
  function ProcessSpec(s: SyncState, item: DataItem): (r: Processed)
    ensures r.differs <==> r.state.forecast != s.forecast
    ensures (s.forecast.Some? ==> WellFormed(s.forecast.value)) ==>
            (r.state.forecast.Some? ==> WellFormed(r.state.forecast.value))
  {
    if item.path != SUNSHINE_CONFIG then Processed(s, false)
    else
      var s1 := if item.isMetric.Some? then s.(isMetric := item.isMetric.value) else s;
      if !HasAllKeys(item.ints) then Processed(s1, false)
      else
        var incoming := IncomingForecast(item.ints);
        match s1.forecast
        case None => Processed(s1.(forecast := Some(incoming)), true)
        case Some(stored) => Processed(s1.(forecast := Some(incoming)), stored != incoming)
  }

  /** The three outcomes of handling one item, as the watch face promises
      them. */
  lemma ProcessCases(s: SyncState, item: DataItem)
    ensures item.path != SUNSHINE_CONFIG ==> ProcessSpec(s, item) == Processed(s, false)
    ensures item.path == SUNSHINE_CONFIG ==>
      ProcessSpec(s, item).state.isMetric == (if item.isMetric.Some? then item.isMetric.value else s.isMetric)
    ensures item.path == SUNSHINE_CONFIG && !HasAllKeys(item.ints) ==>
      !ProcessSpec(s, item).differs && ProcessSpec(s, item).state.forecast == s.forecast
    ensures item.path == SUNSHINE_CONFIG && HasAllKeys(item.ints) ==>
      && ProcessSpec(s, item).state.forecast == Some(IncomingForecast(item.ints))
      && (s.forecast.None? ==> ProcessSpec(s, item).differs)
  {
  }

  /** Handling the same item twice in a row: the second time reports no
      change and leaves the state alone. */
  lemma ProcessIdempotent(s: SyncState, item: DataItem)
    ensures !ProcessSpec(ProcessSpec(s, item).state, item).differs
    ensures ProcessSpec(ProcessSpec(s, item).state, item).state == ProcessSpec(s, item).state
  {
  }

  // ---------------------------------------------------------------------------
  // The two loops over items
  // ---------------------------------------------------------------------------

  /** The data-changed listener: changed events are handled in order, and the
      first one that reports a change ends the loop. It reports a change
      exactly when the stored forecast differs afterwards. */
  function DataChangedSpec(s: SyncState, events: seq<DataEvent>): (r: Processed)
    ensures r.differs <==> r.state.forecast != s.forecast
    decreases |events|
  {
    if events == [] then Processed(s, false)
    else if events[0].eventType != TypeChanged then DataChangedSpec(s, events[1..])
    else
      var p := ProcessSpec(s, events[0].item);
      if p.differs then p else DataChangedSpec(p.state, events[1..])
  }

  /** The result callback: every item is handled, and the report is the OR of
      the per-item reports. No report means the forecast is unchanged. */
  function ResultSpec(s: SyncState, items: seq<DataItem>): (r: Processed)
    ensures !r.differs ==> r.state.forecast == s.forecast
    decreases |items|
  {
    if items == [] then Processed(s, false)
    else
      var p := ProcessSpec(s, items[0]);
      var rest := ResultSpec(p.state, items[1..]);
      Processed(rest.state, p.differs || rest.differs)
  }

  /** Once the data-changed loop has seen a change, events after it are
      never handled. */
  lemma {:induction false} DataChangedIgnoresLaterEvents(s: SyncState, events: seq<DataEvent>, later: seq<DataEvent>)
    requires DataChangedSpec(s, events).differs
    ensures DataChangedSpec(s, events + later) == DataChangedSpec(s, events)
    decreases |events|
  {
    assert events != [];
    assert (events + later)[0] == events[0];
    assert (events + later)[1..] == events[1..] + later;
    if events[0].eventType != TypeChanged {
      DataChangedIgnoresLaterEvents(s, events[1..], later);
    } else {
      var p := ProcessSpec(s, events[0].item);
      if !p.differs {
        DataChangedIgnoresLaterEvents(p.state, events[1..], later);
      }
    }
  }

  /** The result loop over a concatenation is the loop over the second part,
      started where the first part left off, with the reports ORed: unlike
      the data-changed loop, a change in the first part does not stop it. */
  lemma {:induction false} ResultSpecAppend(s: SyncState, first: seq<DataItem>, second: seq<DataItem>)
    ensures var a := ResultSpec(s, first);
            var b := ResultSpec(a.state, second);
            ResultSpec(s, first + second) == Processed(b.state, a.differs || b.differs)
    decreases |first|
  {
    if first == [] {
      assert first + second == second;
    } else {
      assert (first + second)[0] == first[0];
      assert (first + second)[1..] == first[1..] + second;
      ResultSpecAppend(ProcessSpec(s, first[0]).state, first[1..], second);
    }
  }

  /** The state the result loop has reached when it comes to item `i`. */
  function StateBefore(s: SyncState, items: seq<DataItem>, i: int): (reached: SyncState)
    requires 0 <= i <= |items|
  {
    ResultSpec(s, items[..i]).state
  }

  /** The result loop reports a change exactly when some item, handled in the
      state the loop had reached, reports one. */
  lemma {:induction false} ResultIsOrOfItems(s: SyncState, items: seq<DataItem>)
    ensures ResultSpec(s, items).differs <==>
      exists i :: 0 <= i < |items| && ProcessSpec(StateBefore(s, items, i), items[i]).differs
    decreases |items|
  {
    if items != [] {
      var p := ProcessSpec(s, items[0]);
      var rest := items[1..];
      ResultIsOrOfItems(p.state, rest);
      assert items[..0] == [];
      assert StateBefore(s, items, 0) == s;
      forall i | 1 <= i <= |items|
        ensures StateBefore(s, items, i) == StateBefore(p.state, rest, i - 1)
      {
        assert items[..i][0] == items[0];
        assert items[..i][1..] == rest[..i - 1];
      }
      if ResultSpec(s, items).differs {
        if !p.differs {
          var j :| 0 <= j < |rest| && ProcessSpec(StateBefore(p.state, rest, j), rest[j]).differs;
          assert items[j + 1] == rest[j];
        }
      } else {
        forall i | 0 <= i < |items|
          ensures !ProcessSpec(StateBefore(s, items, i), items[i]).differs
        {
          if i > 0 {
            assert items[i] == rest[i - 1];
          }
        }
      }
    }
  }

  /** A forecast message whose only varying entry is the maximum temperature. */
  function ForecastItem(maxTemp: int): (item: DataItem)
    ensures item.path == SUNSHINE_CONFIG && HasAllKeys(item.ints)
  {
    DataItem(SUNSHINE_CONFIG,
             map[WEATHER_TYPE_KEY := 800, MAX_TEMP_KEY := maxTemp, MIN_TEMP_KEY := 0,
                 WIND_ANGLE_KEY := 0, WIND_SPEED_KEY := 0],
             None)
  }

  /** The two loops part ways on a change that a later item undoes: the
      result loop handles both items and reports a change although the
      forecast ends where it began, while the data-changed loop stops after
      the first item with the changed forecast in place. */
  lemma LoopsDifferOnRevertedChange()
    ensures var s := ProcessSpec(SyncState(true, None), ForecastItem(10)).state;
            var r := ResultSpec(s, [ForecastItem(20), ForecastItem(10)]);
            r.differs && r.state == s
    ensures var s := ProcessSpec(SyncState(true, None), ForecastItem(10)).state;
            var d := DataChangedSpec(s, [DataEvent(TypeChanged, ForecastItem(20)), DataEvent(TypeChanged, ForecastItem(10))]);
            d.differs && d.state == ProcessSpec(s, ForecastItem(20)).state && d.state != s
  {
  }

  // ---------------------------------------------------------------------------
  // Redraws requested while items are handled
  // ---------------------------------------------------------------------------

  /** Handling one item redraws on its own account (the unit update) exactly
      when it carries a unit flag that differs from the current one, that is,
      exactly when it changes the unit. */
  function UnitRedraw(s: SyncState, item: DataItem): (r: bool)
    ensures r <==> ProcessSpec(s, item).state.isMetric != s.isMetric
  {
    item.path == SUNSHINE_CONFIG && item.isMetric.Some? && item.isMetric.value != s.isMetric
  }

  /** Whether the data-changed listener redraws at least once: for a unit
      change while an event is handled, or at the end for a changed forecast.
      Whatever it shows changes only with a redraw. */
  function DataChangedRedraws(s: SyncState, events: seq<DataEvent>): (r: bool)
    ensures DataChangedSpec(s, events).differs ==> r
    ensures !r ==> DataChangedSpec(s, events).state == s
    decreases |events|
  {
    if events == [] then false
    else if events[0].eventType != TypeChanged then DataChangedRedraws(s, events[1..])
    else
      var p := ProcessSpec(s, events[0].item);
      UnitRedraw(s, events[0].item) || p.differs || DataChangedRedraws(p.state, events[1..])
  }

  /** Whether the result callback redraws at least once: for a unit change
      while an item is handled, or at the end for a changed forecast. Whatever
      it shows changes only with a redraw. */
  function ResultRedraws(s: SyncState, items: seq<DataItem>): (r: bool)
    ensures ResultSpec(s, items).differs ==> r
    ensures !r ==> ResultSpec(s, items).state == s
    decreases |items|
  {
    if items == [] then false
    else
      var p := ProcessSpec(s, items[0]);
      UnitRedraw(s, items[0]) || p.differs || ResultRedraws(p.state, items[1..])
  }

  /** An item that only switches the unit reports no forecast change, yet
      both loops redraw the face for it. */
  lemma UnitOnlyItemRedraws(s: SyncState, newIsMetric: bool)
    requires newIsMetric != s.isMetric
    ensures var item := DataItem(SUNSHINE_CONFIG, map[], Some(newIsMetric));
            && DataChangedSpec(s, [DataEvent(TypeChanged, item)]) == Processed(s.(isMetric := newIsMetric), false)
            && DataChangedRedraws(s, [DataEvent(TypeChanged, item)])
            && ResultSpec(s, [item]) == Processed(s.(isMetric := newIsMetric), false)
            && ResultRedraws(s, [item])
  {
  }

  // ---------------------------------------------------------------------------
  // Timer
  // ---------------------------------------------------------------------------

  /** Interactive mode redraws once a second. */
  const INTERACTIVE_UPDATE_RATE_MS := 1000

  /** Java's `/` on `long`: the quotient is truncated toward zero. */
  function JavaQuotient(a: int, m: int): (q: int)
    requires m > 0
  {
    if a >= 0 then a / m else -((-a) / m)
  }

  /** Java's `%` on `long`: the remainder takes the sign of the dividend, and
      it completes the truncated quotient. */
  function JavaRemainder(a: int, m: int): (r: int)
    requires m > 0
    ensures -m < r < m
    ensures a >= 0 ==> 0 <= r
    ensures a < 0 ==> r <= 0
    ensures a == m * JavaQuotient(a, m) + r
  {
    if a >= 0 then a % m else -((-a) % m)
  }

  /** The delay the handler waits before the next tick: up to the next whole
      second of the clock. */
  function UpdateDelay(timeMs: int): (delayMs: int)
    ensures (timeMs + delayMs) % INTERACTIVE_UPDATE_RATE_MS == 0
    ensures timeMs >= 0 ==> 1 <= delayMs <= INTERACTIVE_UPDATE_RATE_MS
  {
    var q := JavaQuotient(timeMs, INTERACTIVE_UPDATE_RATE_MS);
    assert timeMs + (INTERACTIVE_UPDATE_RATE_MS - JavaRemainder(timeMs, INTERACTIVE_UPDATE_RATE_MS))
        == INTERACTIVE_UPDATE_RATE_MS * (q + 1);
    INTERACTIVE_UPDATE_RATE_MS - JavaRemainder(timeMs, INTERACTIVE_UPDATE_RATE_MS)
  }

  /** For a clock reading at or after the epoch, the next tick lands on the
      first whole second strictly after it. */
  lemma NextTickIsNextWholeSecond(timeMs: int)
    requires timeMs >= 0
    ensures timeMs < timeMs + UpdateDelay(timeMs)
    ensures (timeMs + UpdateDelay(timeMs)) / INTERACTIVE_UPDATE_RATE_MS == timeMs / INTERACTIVE_UPDATE_RATE_MS + 1
  {
  }

  // ---------------------------------------------------------------------------
  // The engine
  // ---------------------------------------------------------------------------

  /** The kinds of tap the watch reports; only a completed tap acts. */
  datatype TapType = Touch | TouchCancel | Tap

  /** What the bottom line of the face shows for a stored forecast: the
      weather icon, both temperatures, the wind speed and the direction. */
  datatype BottomLine = BottomLine(
    icon: WeatherIcon, maxTemp: ShownTemperature, minTemp: ShownTemperature,
    windSpeed: WindSpeedText, windDirection: DirectionLabel)

  /** Preparing the bottom line: the icon first, then the formatted values;
      an unexpected category or direction is an AssertionError. What is shown
      reflects the stored forecast and the unit choice exactly. */
  function PrepareBottomLine(f: ForecastData, isMetric: bool): (r: Result<BottomLine, Unexpected>)
    ensures r.Success? <==> WellFormed(f)
    ensures r.Success? ==>
      && WeatherTypeOfIcon(r.value.icon) == f.weatherType
      && DirectionOfLabel(r.value.windDirection) == f.windDirection
      && r.value.maxTemp.celsius == f.maxTemp && r.value.minTemp.celsius == f.minTemp
      && r.value.windSpeed.speed.kmh == f.windSpeed
      && (r.value.maxTemp.CelsiusAsStored? <==> isMetric)
      && (r.value.minTemp.CelsiusAsStored? <==> isMetric)
      && (r.value.windSpeed.format == FormatWindKmh <==> isMetric)
      && (r.value.windSpeed.speed.KmhAsStored? <==> isMetric)
  {
    match GetWeatherTypeIconRes(f.weatherType)
    case Failure(e) => Failure(e)
    case Success(icon) =>
      var maxTemp := FormatTemperature(f.maxTemp, isMetric);
      var minTemp := FormatTemperature(f.minTemp, isMetric);
      var windSpeed := FormatWindSpeed(f.windSpeed, isMetric);
      match FormatWindDirection(f.windDirection)
      case Failure(e) => Failure(e)
      case Success(lbl) => Success(BottomLine(icon, maxTemp, minTemp, windSpeed, lbl))
  }

  /** The bottom line loses nothing: two forecasts, or two unit choices,
      that differ never show the same bottom line. */
  lemma BottomLineDeterminesForecast(f1: ForecastData, m1: bool, f2: ForecastData, m2: bool)
    requires WellFormed(f1) && WellFormed(f2)
    requires PrepareBottomLine(f1, m1) == PrepareBottomLine(f2, m2)
    ensures f1 == f2 && m1 == m2
  {
  }

  class Engine {
    var mRegisteredTimeZoneReceiver: bool
    var mAmbient: bool
    /** The framework's visibility flag (`isVisible()`). */
    var visible: bool
    var showAlternative: bool
    var isMetric: bool
    var dataItem: ForecastDataItem?
    /** The prepared bottom-line texts and icon; none before the first forecast. */
    var bottomLine: Option<BottomLine>
    /** How many registrations of the time-zone receiver the system holds. */
    ghost var receiverRegistrations: nat

    ghost predicate Valid()
      reads this, dataItem
    {
      && receiverRegistrations == (if mRegisteredTimeZoneReceiver then 1 else 0)
      && (dataItem != null ==> WellFormed(dataItem.Data()))
      && bottomLine == (if dataItem == null then None else Some(PrepareBottomLine(dataItem.Data(), isMetric).value))
    }

    /** The part of the state incoming items change. */
    function Sync(): SyncState
      reads this, dataItem
    {
      SyncState(isMetric, if dataItem == null then None else Some(dataItem.Data()))
    }

    constructor ()
      ensures Valid()
      ensures !mRegisteredTimeZoneReceiver && !mAmbient && !visible && !showAlternative
      ensures Sync() == SyncState(false, None)
    {
      mRegisteredTimeZoneReceiver := false;
      mAmbient := false;
      visible := false;
      showAlternative := false;
      isMetric := false;
      dataItem := null;
      bottomLine := None;
      receiverRegistrations := 0;
    }

    /** Register the time-zone receiver unless the flag says it already is. */
    method RegisterReceiver()
      requires Valid()
      modifies this`mRegisteredTimeZoneReceiver, this`receiverRegistrations
      ensures Valid()
      ensures mRegisteredTimeZoneReceiver && receiverRegistrations == 1
      ensures old(mRegisteredTimeZoneReceiver) ==> receiverRegistrations == old(receiverRegistrations)
    {
      if mRegisteredTimeZoneReceiver {
        return;
      }
      mRegisteredTimeZoneReceiver := true;
      receiverRegistrations := receiverRegistrations + 1;
    }

    /** Unregister the time-zone receiver only when the flag says it is
      registered, so the system is never asked to drop a receiver it does
      not hold. */
    method UnregisterReceiver()
      requires Valid()
      modifies this`mRegisteredTimeZoneReceiver, this`receiverRegistrations
      ensures Valid()
      ensures !mRegisteredTimeZoneReceiver && receiverRegistrations == 0
      ensures !old(mRegisteredTimeZoneReceiver) ==> receiverRegistrations == old(receiverRegistrations)
    {
      if !mRegisteredTimeZoneReceiver {
        return;
      }
      mRegisteredTimeZoneReceiver := false;
      receiverRegistrations := receiverRegistrations - 1;
    }

    /** The timer runs only while the face is visible and interactive. */
    predicate ShouldTimerBeRunning()
      reads this
    {
      visible && !mAmbient
    }

    /** Visibility change: the receiver follows visibility, and the timer is
      restarted when it should run. */
    method OnVisibilityChanged(isVisible: bool) returns (timerStarted: bool)
      requires Valid()
      modifies this`visible, this`mRegisteredTimeZoneReceiver, this`receiverRegistrations
      ensures Valid()
      ensures visible == isVisible && mRegisteredTimeZoneReceiver == isVisible
      ensures timerStarted <==> isVisible && !mAmbient
    {
      visible := isVisible;
      if isVisible {
        RegisterReceiver();
      } else {
        UnregisterReceiver();
      }
      timerStarted := ShouldTimerBeRunning();
    }

    /** One timer tick: the face is always redrawn and, when the timer should
      still run, the delay until the next tick is returned. */
    method HandleUpdateTimeMessage(timeMs: int) returns (invalidated: bool, nextDelayMs: Option<int>)
      ensures invalidated
      ensures nextDelayMs.Some? <==> visible && !mAmbient
      ensures nextDelayMs.Some? ==> (timeMs + nextDelayMs.value) % INTERACTIVE_UPDATE_RATE_MS == 0
      ensures nextDelayMs.Some? && timeMs >= 0 ==> 1 <= nextDelayMs.value <= INTERACTIVE_UPDATE_RATE_MS
    {
      invalidated := true;
      if ShouldTimerBeRunning() {
        nextDelayMs := Some(UpdateDelay(timeMs));
      } else {
        nextDelayMs := None;
      }
    }

    /** Entering or leaving ambient mode. Data is requested from the phone
      only on a transition out of ambient mode while connected and with no
      forecast stored. */
    method OnAmbientModeChanged(inAmbientMode: bool, connected: bool)
      returns (requestData: bool, invalidated: bool, timerStarted: bool)
      requires Valid()
      modifies this`mAmbient
      ensures Valid()
      ensures mAmbient == inAmbientMode
      ensures requestData <==> old(mAmbient) && !inAmbientMode && connected && dataItem == null
      ensures invalidated <==> old(mAmbient) != inAmbientMode
      ensures timerStarted <==> visible && !inAmbientMode
    {
      requestData, invalidated := false, false;
      if mAmbient != inAmbientMode {
        mAmbient := inAmbientMode;
        if !mAmbient && connected && dataItem == null {
          requestData := true;
        }
        invalidated := true;
      }
      timerStarted := ShouldTimerBeRunning();
    }

    /** A completed tap toggles between the temperature and the wind views;
      the face is redrawn only when interactive. */
    method OnTapCommand(tapType: TapType) returns (invalidated: bool)
      requires Valid()
      modifies this`showAlternative
      ensures Valid()
      ensures showAlternative == (if tapType == Tap then !old(showAlternative) else old(showAlternative))
      ensures invalidated <==> tapType == Tap && !mAmbient
    {
      invalidated := false;
      match tapType
      case Tap =>
        showAlternative := !showAlternative;
        if !mAmbient {
          invalidated := true;
        }
      case _ =>
    }

    /** Recompute the bottom line from the stored forecast. */
    method PrepareBottomLineFromItem()
      requires dataItem != null && WellFormed(dataItem.Data())
      modifies this`bottomLine
      ensures bottomLine == Some(PrepareBottomLine(dataItem.Data(), isMetric).value)
    {
      var prepared := PrepareBottomLine(dataItem.Data(), isMetric);
      bottomLine := Some(prepared.value);
    }

    /** Apply the phone's unit preference; when it changes, the shown values
      are prepared again in the new unit. */
    method UpdateIsMetricIfNeeded(newIsMetric: bool) returns (invalidated: bool)
      requires Valid()
      modifies this`isMetric, this`bottomLine
      ensures Valid()
      ensures isMetric == newIsMetric
      ensures invalidated <==> old(isMetric) != newIsMetric
      ensures !invalidated ==> bottomLine == old(bottomLine)
    {
      invalidated := false;
      if newIsMetric != isMetric {
        isMetric := newIsMetric;
        if dataItem != null {
          PrepareBottomLineFromItem();
        }
        invalidated := true;
      }
    }

    /** Handle one data item (see ProcessSpec). Besides the report the
      source returns, `unitRedrawn` tells whether the unit update redrew the
      face. */
    method ProcessItem(item: DataItem) returns (dataDiffers: bool, unitRedrawn: bool)
      requires Valid()
      modifies this`isMetric, this`bottomLine, this`dataItem, dataItem
      ensures Valid()
      ensures Processed(Sync(), dataDiffers) == ProcessSpec(old(Sync()), item)
      ensures unitRedrawn == UnitRedraw(old(Sync()), item)
      ensures old(dataItem) != null ==> dataItem == old(dataItem)
      ensures old(dataItem) == null && dataItem != null ==> fresh(dataItem)
    {
      unitRedrawn := false;
      if item.path == SUNSHINE_CONFIG {
        if item.isMetric.Some? {
          unitRedrawn := UpdateIsMetricIfNeeded(item.isMetric.value);
        }
        if !HasAllKeys(item.ints) {
          return false, unitRedrawn;
        }
        var weatherType := TranslateWeatherIdToWeatherType(item.ints[WEATHER_TYPE_KEY]);
        var windDirection := TranslateWindAngleToDirection(item.ints[WIND_ANGLE_KEY]);
        if dataItem == null {
          dataItem := new ForecastDataItem(weatherType, item.ints[MAX_TEMP_KEY], item.ints[MIN_TEMP_KEY],
                                           windDirection, item.ints[WIND_SPEED_KEY]);
          dataDiffers := true;
        } else {
          dataDiffers := dataItem.ExchangeDataIfDiffers(weatherType, item.ints[MAX_TEMP_KEY], item.ints[MIN_TEMP_KEY],
                                                        windDirection, item.ints[WIND_SPEED_KEY]);
        }
        if dataDiffers {
          PrepareBottomLineFromItem();
        }
        return dataDiffers, unitRedrawn;
      }
      return false, unitRedrawn;
    }

    /** The data-changed listener (see DataChangedSpec and
      DataChangedRedraws); `invalidated` tells whether the face was redrawn
      at least once. */
    method OnDataChanged(events: seq<DataEvent>) returns (dataDiffers: bool, invalidated: bool)
      requires Valid()
      modifies this`isMetric, this`bottomLine, this`dataItem, dataItem
      ensures Valid()
      ensures Processed(Sync(), dataDiffers) == DataChangedSpec(old(Sync()), events)
      ensures invalidated == DataChangedRedraws(old(Sync()), events)
    {
      dataDiffers, invalidated := false, false;
      var i := 0;
      while i < |events|
        invariant 0 <= i <= |events|
        invariant Valid()
        invariant !dataDiffers
        invariant DataChangedSpec(old(Sync()), events) == DataChangedSpec(Sync(), events[i..])
        invariant DataChangedRedraws(old(Sync()), events) == (invalidated || DataChangedRedraws(Sync(), events[i..]))
        invariant old(dataItem) != null ==> dataItem == old(dataItem)
        invariant old(dataItem) == null && dataItem != null ==> fresh(dataItem)
      {
        assert events[i..][1..] == events[i + 1..];
        if events[i].eventType == TypeChanged {
          var unitRedrawn;
          dataDiffers, unitRedrawn := ProcessItem(events[i].item);
          invalidated := invalidated || unitRedrawn;
          if dataDiffers {
            break;
          }
        }
        i := i + 1;
      }
      if dataDiffers {
        invalidated := true;
      }
    }

    /** The result callback (see ResultSpec and ResultRedraws); `invalidated`
      tells whether the face was redrawn at least once. */
    method OnResult(items: seq<DataItem>) returns (dataDiffers: bool, invalidated: bool)
      requires Valid()
      modifies this`isMetric, this`bottomLine, this`dataItem, dataItem
      ensures Valid()
      ensures Processed(Sync(), dataDiffers) == ResultSpec(old(Sync()), items)
      ensures invalidated == ResultRedraws(old(Sync()), items)
    {
      dataDiffers, invalidated := false, false;
      for i := 0 to |items|
        invariant Valid()
        invariant ResultSpec(old(Sync()), items) ==
          Processed(ResultSpec(Sync(), items[i..]).state, dataDiffers || ResultSpec(Sync(), items[i..]).differs)
        invariant ResultRedraws(old(Sync()), items) ==
          (invalidated || dataDiffers || ResultRedraws(Sync(), items[i..]))
        invariant old(dataItem) != null ==> dataItem == old(dataItem)
        invariant old(dataItem) == null && dataItem != null ==> fresh(dataItem)
      {
        assert items[i..][1..] == items[i + 1..];
        var changed, unitRedrawn := ProcessItem(items[i]);
        if changed {
          dataDiffers := true;
        }
        if unitRedrawn {
          invalidated := true;
        }
      }
      assert items[|items|..] == [];
      if dataDiffers {
        invalidated := true;
      }
    }
  }
}
