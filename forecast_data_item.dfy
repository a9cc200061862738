/** The watch-side forecast record: five integer fields that the watch face
    overwrites when the phone sends new data, plus the static translations from
    the phone's raw values (wind angle in degrees, OpenWeatherMap condition id)
    to the watch's compass directions and weather categories. */
module ForecastModel {
  import opened Outcomes

  // Compass directions, as the watch stores them.
  const NORTH := 0
  const NORTH_EAST := 1
  const EAST := 2
  const SOUTH_EAST := 3
  const SOUTH := 4
  const SOUTH_WEST := 5
  const WEST := 6
  const NORTH_WEST := 7

  // Weather categories, as the watch stores them.
  const STORM := 1
  const LIGHT_RAIN := 2
  const RAIN := 3
  const SNOW := 4
  const FOG := 5
  const CLEAR_SKY := 6
  const LIGHT_CLOUDS := 7
  const CLOUDS := 8

  predicate IsWindDirection(d: int) { NORTH <= d <= NORTH_WEST }

  predicate IsWeatherType(t: int) { STORM <= t <= CLOUDS }

  /** What a `ForecastDataItem` holds, as a value. */
  datatype ForecastData = ForecastData(
    weatherType: int, maxTemp: int, minTemp: int, windDirection: int, windSpeed: int)

  /** A forecast whose category and direction are among the declared constants:
      the only kind the rendering code can display without an AssertionError. */
  predicate WellFormed(f: ForecastData) {
    IsWeatherType(f.weatherType) && IsWindDirection(f.windDirection)
  }

  /** The failures the watch side raises as `AssertionError`. */
  datatype Unexpected = UnexpectedWeatherType(weatherType: int) | UnsupportedDirection(direction: int)

  // ---------------------------------------------------------------------------
  // The mutable record
  // ---------------------------------------------------------------------------

  class ForecastDataItem {
    var weatherType: int
    var maxTemp: int
    var minTemp: int
    var windDirection: int
    var windSpeed: int

    /** The record's five fields as one value. */
    function Data(): ForecastData
      reads this
    {
      ForecastData(weatherType, maxTemp, minTemp, windDirection, windSpeed)
    }

    constructor (weatherType: int, maxTemp: int, minTemp: int, windDirection: int, windSpeed: int)
      ensures Data() == ForecastData(weatherType, maxTemp, minTemp, windDirection, windSpeed)
    {
      this.weatherType := weatherType;
      this.maxTemp := maxTemp;
      this.minTemp := minTemp;
      this.windDirection := windDirection;
      this.windSpeed := windSpeed;
    }

    /** Compare-and-update: every field that differs from its argument is
        overwritten, and the result says whether any did. */
    method ExchangeDataIfDiffers(weatherType: int, maxTemp: int, minTemp: int, windDirection: int, windSpeed: int)
      returns (dataDiffers: bool)
      modifies this
      ensures Data() == ForecastData(weatherType, maxTemp, minTemp, windDirection, windSpeed)
      ensures dataDiffers <==>
        old(this.weatherType) != weatherType || old(this.maxTemp) != maxTemp || old(this.minTemp) != minTemp
        || old(this.windDirection) != windDirection || old(this.windSpeed) != windSpeed
      ensures !dataDiffers ==> Data() == old(Data())
    {
      dataDiffers := false;
      if this.weatherType != weatherType {
        this.weatherType := weatherType;
        dataDiffers := true;
      }
      if this.maxTemp != maxTemp {
        this.maxTemp := maxTemp;
        dataDiffers := true;
      }
      if this.minTemp != minTemp {
        this.minTemp := minTemp;
        dataDiffers := true;
      }
      if this.windDirection != windDirection {
        this.windDirection := windDirection;
        dataDiffers := true;
      }
      if this.windSpeed != windSpeed {
        this.windSpeed := windSpeed;
        dataDiffers := true;
      }
    }
  }

  /** An immediate second exchange with the same arguments reports no change
      and leaves the record as the first one left it. */
  method ExchangeTwice(item: ForecastDataItem, incoming: ForecastData)
    returns (first: bool, second: bool)
    modifies item
    ensures item.Data() == incoming
    ensures first <==> old(item.Data()) != incoming
    ensures !second
  {
    first := item.ExchangeDataIfDiffers(incoming.weatherType, incoming.maxTemp, incoming.minTemp,
                                        incoming.windDirection, incoming.windSpeed);
    second := item.ExchangeDataIfDiffers(incoming.weatherType, incoming.maxTemp, incoming.minTemp,
                                         incoming.windDirection, incoming.windSpeed);
  }

  // ---------------------------------------------------------------------------
  // Wind angle to compass direction
  // ---------------------------------------------------------------------------

  /** The sector chain applied to an angle already reduced into [0, 360):
      the upper bound of every band is inclusive, and the tail above 337
      wraps round to north. */
  function SectorOf(angle: int): (d: int)
    requires 0 <= angle < 360
    ensures IsWindDirection(d)
  {
    if angle <= 22 then NORTH
    else if angle <= 67 then NORTH_EAST
    else if angle <= 112 then EAST
    else if angle <= 157 then SOUTH_EAST
    else if angle <= 202 then SOUTH
    else if angle <= 247 then SOUTH_WEST
    else if angle <= 292 then WEST
    else if angle <= 337 then NORTH_WEST
    else NORTH
  }

  /** The direction any integer angle translates to. Dafny's `%` is Euclidean,
      so this reduces negative angles the way the source's loop of `+= 360`
      followed by `%= 360` does. */
  function WindDirectionOf(windAngle: int): (d: int)
    ensures IsWindDirection(d)
  {
    SectorOf(windAngle % 360)
  }

  /** The source's procedure: lift a negative angle by whole turns, reduce it
      below 360, then pick the sector. Terminates for every integer. */
  method TranslateWindAngleToDirection(windAngle: int) returns (d: int)
    ensures IsWindDirection(d)
    ensures d == WindDirectionOf(windAngle)
  {
    var angle := windAngle;
    while angle < 0
      invariant angle % 360 == windAngle % 360
      invariant windAngle < 0 ==> angle < 360
      invariant windAngle >= 0 ==> angle == windAngle
      decreases -angle
    {
      angle := angle + 360;
    }
    angle := angle % 360;
    if angle <= 22 {
      d := NORTH;
    } else if angle <= 67 {
      d := NORTH_EAST;
    } else if angle <= 112 {
      d := EAST;
    } else if angle <= 157 {
      d := SOUTH_EAST;
    } else if angle <= 202 {
      d := SOUTH;
    } else if angle <= 247 {
      d := SOUTH_WEST;
    } else if angle <= 292 {
      d := WEST;
    } else if angle <= 337 {
      d := NORTH_WEST;
    } else {
      d := NORTH;
    }
  }

  /** Distance in degrees between two bearings in [0, 360), going the short
      way round the circle. */
  function AngularDistance(a: int, b: int): (r: int)
    requires 0 <= a < 360 && 0 <= b < 360
    ensures 0 <= r <= 180
  {
    var diff := if a >= b then a - b else b - a;
    if diff <= 180 then diff else 360 - diff
  }

  /** The bearing (in degrees) of the middle of a compass sector. */
  function Bearing(d: int): (degrees: int)
    requires IsWindDirection(d)
    ensures 0 <= degrees < 360 && degrees % 45 == 0
  {
    45 * d
  }

  /** Independent characterisation of the sector chain: the direction chosen
      for an angle is exactly the compass point within 22 degrees of it, and
      every other compass point is at least 23 degrees away. */
  lemma NearestCompassPoint(windAngle: int, d: int)
    requires IsWindDirection(d)
    ensures d == WindDirectionOf(windAngle) <==> AngularDistance(windAngle % 360, Bearing(d)) <= 22
  {
  }

  /** Whole turns do not change the direction: `a`, `a + 360` and `a - 360`
      (and any other multiple of 360 away) translate alike. */
  lemma WindDirectionPeriodic(windAngle: int, turns: int)
    ensures WindDirectionOf(windAngle + 360 * turns) == WindDirectionOf(windAngle)
  {
  }

  /** The band edges, including the inclusive upper bounds and the wrap at
      the top of the circle. */
  lemma WindBandEdges()
    ensures WindDirectionOf(0) == NORTH && WindDirectionOf(22) == NORTH
    ensures WindDirectionOf(23) == NORTH_EAST && WindDirectionOf(67) == NORTH_EAST
    ensures WindDirectionOf(68) == EAST && WindDirectionOf(112) == EAST
    ensures WindDirectionOf(113) == SOUTH_EAST && WindDirectionOf(157) == SOUTH_EAST
    ensures WindDirectionOf(158) == SOUTH && WindDirectionOf(202) == SOUTH
    ensures WindDirectionOf(203) == SOUTH_WEST && WindDirectionOf(247) == SOUTH_WEST
    ensures WindDirectionOf(248) == WEST && WindDirectionOf(292) == WEST
    ensures WindDirectionOf(293) == NORTH_WEST && WindDirectionOf(337) == NORTH_WEST
    ensures WindDirectionOf(338) == NORTH && WindDirectionOf(359) == NORTH
    ensures WindDirectionOf(-1) == NORTH && WindDirectionOf(360) == NORTH
  {
  }

  // ---------------------------------------------------------------------------
  // OpenWeatherMap condition id to weather category
  // ---------------------------------------------------------------------------

  /** The ordered range table: the first range that contains the id decides,
      and an id that matches no range is shown as a clear sky. */
  function TranslateWeatherIdToWeatherType(weatherId: int): (t: int)
    ensures IsWeatherType(t)
  {
    if 200 <= weatherId <= 232 then STORM
    else if 300 <= weatherId <= 321 then LIGHT_RAIN
    else if 500 <= weatherId <= 504 then RAIN
    else if weatherId == 511 then SNOW
    else if 520 <= weatherId <= 531 then RAIN
    else if 600 <= weatherId <= 622 then SNOW
    else if 701 <= weatherId <= 761 then FOG
    else if weatherId == 761 || weatherId == 781 then STORM
    else if weatherId == 800 then CLEAR_SKY
    else if weatherId == 801 then LIGHT_CLOUDS
    else if 802 <= weatherId <= 804 then CLOUDS
    else CLEAR_SKY
  }

  /** Ids that some range of the table claims. */
  predicate KnownWeatherId(id: int) {
    || 200 <= id <= 232 || 300 <= id <= 321 || 500 <= id <= 504 || id == 511
    || 520 <= id <= 531 || 600 <= id <= 622 || 701 <= id <= 761 || id == 781
    || 800 <= id <= 804
  }

  /** The preimage of each category, in both directions. Because the first
      matching range wins, 761 is fog although the storm range names it too. */
  lemma WeatherTypePreimage(id: int)
    ensures TranslateWeatherIdToWeatherType(id) == STORM <==> 200 <= id <= 232 || id == 781
    ensures TranslateWeatherIdToWeatherType(id) == LIGHT_RAIN <==> 300 <= id <= 321
    ensures TranslateWeatherIdToWeatherType(id) == RAIN <==> 500 <= id <= 504 || 520 <= id <= 531
    ensures TranslateWeatherIdToWeatherType(id) == SNOW <==> id == 511 || 600 <= id <= 622
    ensures TranslateWeatherIdToWeatherType(id) == FOG <==> 701 <= id <= 761
    ensures TranslateWeatherIdToWeatherType(id) == CLEAR_SKY <==> id == 800 || !KnownWeatherId(id)
    ensures TranslateWeatherIdToWeatherType(id) == LIGHT_CLOUDS <==> id == 801
    ensures TranslateWeatherIdToWeatherType(id) == CLOUDS <==> 802 <= id <= 804
  {
  }

  // ---------------------------------------------------------------------------
  // Weather category to icon
  // ---------------------------------------------------------------------------

  /** The drawable resources the watch face draws next to the temperatures. */
  datatype WeatherIcon = StormIcon | LightRainIcon | RainIcon | LightCloudsIcon
                       | CloudyIcon | ClearIcon | FogIcon | SnowIcon

  /** Partial lookup from category to icon; any other value is the source's
      AssertionError. */
  function GetWeatherTypeIconRes(weatherType: int): (r: Result<WeatherIcon, Unexpected>)
    ensures r.Success? <==> IsWeatherType(weatherType)
    ensures r.Failure? ==> r.error == UnexpectedWeatherType(weatherType)
  {
    if weatherType == STORM then Success(StormIcon)
    else if weatherType == LIGHT_RAIN then Success(LightRainIcon)
    else if weatherType == RAIN then Success(RainIcon)
    else if weatherType == LIGHT_CLOUDS then Success(LightCloudsIcon)
    else if weatherType == CLOUDS then Success(CloudyIcon)
    else if weatherType == CLEAR_SKY then Success(ClearIcon)
    else if weatherType == FOG then Success(FogIcon)
    else if weatherType == SNOW then Success(SnowIcon)
    else Failure(UnexpectedWeatherType(weatherType))
  }

  /** The category an icon stands for. */
  function WeatherTypeOfIcon(icon: WeatherIcon): (t: int)
    ensures IsWeatherType(t)
  {
    match icon
    case StormIcon => STORM
    case LightRainIcon => LIGHT_RAIN
    case RainIcon => RAIN
    case LightCloudsIcon => LIGHT_CLOUDS
    case CloudyIcon => CLOUDS
    case ClearIcon => CLEAR_SKY
    case FogIcon => FOG
    case SnowIcon => SNOW
  }

  /** Icon lookup and its inverse round-trip both ways, so every category has
      its own icon and every icon belongs to exactly one category. */
  lemma IconRoundTrip(weatherType: int, icon: WeatherIcon)
    ensures IsWeatherType(weatherType) ==>
      WeatherTypeOfIcon(GetWeatherTypeIconRes(weatherType).value) == weatherType
    ensures GetWeatherTypeIconRes(WeatherTypeOfIcon(icon)) == Success(icon)
  {
  }

  /** Two different categories never share an icon. */
  lemma IconsDistinct(t1: int, t2: int)
    requires IsWeatherType(t1) && IsWeatherType(t2) && t1 != t2
    ensures GetWeatherTypeIconRes(t1).value != GetWeatherTypeIconRes(t2).value
  {
  }

  /** Whatever id the phone sends, the icon lookup of its category succeeds. */
  lemma IconOfAnyWeatherId(weatherId: int)
    ensures GetWeatherTypeIconRes(TranslateWeatherIdToWeatherType(weatherId)).Success?
  {
  }
}
