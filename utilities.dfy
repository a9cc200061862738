/** The watch face's formatting helpers, reduced to the choices they make:
    which label a compass direction gets, and which unit (and conversion) a
    temperature or wind speed is shown in. The label and format resources are
    enumerations; the floating-point conversions are named, not computed. */
module Formatting {
  import opened Outcomes
  import opened ForecastModel

  /** The string resources for the eight compass directions. */
  datatype DirectionLabel = NorthLabel | NorthEastLabel | EastLabel | SouthEastLabel
                          | SouthLabel | SouthWestLabel | WestLabel | NorthWestLabel

  /** Label of a stored direction; any other integer is the source's
      AssertionError. The chain tests north first and then goes round
      anticlockwise. */
  function FormatWindDirection(direction: int): (r: Result<DirectionLabel, Unexpected>)
    ensures r.Success? <==> IsWindDirection(direction)
    ensures r.Failure? ==> r.error == UnsupportedDirection(direction)
  {
    if direction == NORTH then Success(NorthLabel)
    else if direction == NORTH_WEST then Success(NorthWestLabel)
    else if direction == WEST then Success(WestLabel)
    else if direction == SOUTH_WEST then Success(SouthWestLabel)
    else if direction == SOUTH then Success(SouthLabel)
    else if direction == SOUTH_EAST then Success(SouthEastLabel)
    else if direction == EAST then Success(EastLabel)
    else if direction == NORTH_EAST then Success(NorthEastLabel)
    else Failure(UnsupportedDirection(direction))
  }

  /** The direction constant a label names. */
  function DirectionOfLabel(name: DirectionLabel): (d: int)
    ensures IsWindDirection(d)
  {
    match name
    case NorthLabel => NORTH
    case NorthEastLabel => NORTH_EAST
    case EastLabel => EAST
    case SouthEastLabel => SOUTH_EAST
    case SouthLabel => SOUTH
    case SouthWestLabel => SOUTH_WEST
    case WestLabel => WEST
    case NorthWestLabel => NORTH_WEST
  }

  /** Formatting and reading back a direction are inverse both ways: each of
      the eight directions has its own label, and each label is used. */
  lemma DirectionLabelRoundTrip(direction: int, lbl: DirectionLabel)
    ensures IsWindDirection(direction) ==>
      DirectionOfLabel(FormatWindDirection(direction).value) == direction
    ensures FormatWindDirection(DirectionOfLabel(lbl)) == Success(lbl)
  {
  }

  /** No two directions share a label. */
  lemma DirectionLabelsDistinct(d1: int, d2: int)
    requires IsWindDirection(d1) && IsWindDirection(d2) && d1 != d2
    ensures FormatWindDirection(d1).value != FormatWindDirection(d2).value
  {
  }

  /** From angle to label never fails: every direction the angle translation
      produces is one the label lookup accepts. */
  lemma AngleToLabelNeverFails(windAngle: int)
    ensures FormatWindDirection(WindDirectionOf(windAngle)).Success?
  {
  }

  /** A temperature ready for the `format_temperature` resource: the stored
      Celsius value as it is, or that value converted to Fahrenheit
      (`* 1.8 + 32`, floating point, not computed here). */
  datatype ShownTemperature = CelsiusAsStored(celsius: int) | FahrenheitOf(celsius: int)

  function FormatTemperature(temperature: int, isMetric: bool): (r: ShownTemperature)
    ensures r.CelsiusAsStored? <==> isMetric
    ensures r.celsius == temperature
  {
    if !isMetric then FahrenheitOf(temperature) else CelsiusAsStored(temperature)
  }

  /** The two wind-speed string resources. */
  datatype WindFormat = FormatWindKmh | FormatWindMph

  /** A wind speed ready for formatting: the stored km/h value as it is, or
      that value converted to mph (`* 0.621371192237334`, floating point, not
      computed here). */
  datatype ShownSpeed = KmhAsStored(kmh: int) | MphOf(kmh: int)

  datatype WindSpeedText = WindSpeedText(format: WindFormat, speed: ShownSpeed)

  function FormatWindSpeed(speed: int, isMetric: bool): (r: WindSpeedText)
    ensures r.format == FormatWindKmh <==> isMetric
    ensures r.speed.KmhAsStored? <==> isMetric
    ensures r.speed.kmh == speed
  {
    if isMetric then WindSpeedText(FormatWindKmh, KmhAsStored(speed))
    else WindSpeedText(FormatWindMph, MphOf(speed))
  }
}
