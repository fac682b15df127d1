/**
  * The weather badge's icon (`getWeatherIcon` in travel_planner/static/script.js): a table
  * from WMO weather codes to emoji, where only the two clear-sky codes look at whether it is
  * day, and a default icon for any code the table does not list.
  *
  * The icons are written as Unicode scalar values; the variation selector U+FE0F that the
  * source puts after most of them is kept.
  */
module WeatherIcons {
  import opened Wrappers

  const Sun: string := "\U{2600}\U{FE0F}"
  const Moon: string := "\U{1F319}"
  const SunSmallCloud: string := "\U{1F324}\U{FE0F}"
  const SunCloud: string := "\U{26C5}"
  const Cloud: string := "\U{2601}\U{FE0F}"
  const Fog: string := "\U{1F32B}\U{FE0F}"
  const SunRainCloud: string := "\U{1F326}\U{FE0F}"
  const RainCloud: string := "\U{1F327}\U{FE0F}"
  const ThunderCloud: string := "\U{26C8}\U{FE0F}"
  const SnowCloud: string := "\U{1F328}\U{FE0F}"
  const Snowflake: string := "\U{2744}\U{FE0F}"

  /** The icon for a code the table does not list. */
  const DefaultIcon: string := SunSmallCloud

  /** The keys of `WEATHER_CODES` in travel_planner/helpers.py, the codes the server describes. */
  const DescribedCodes: set<int> :=
    {0, 1, 2, 3, 45, 48, 51, 53, 55, 61, 63, 65, 71, 73, 75, 77, 80, 81, 82, 85, 86, 95, 96, 99}

  /** `icons[weatherCode]`: the table entry, `None` for a code without one. */
  function IconEntry(code: int, isDay: bool): Option<string> {
    match code
    case 0 => Some(if isDay then Sun else Moon)
    case 1 => Some(if isDay then SunSmallCloud else Moon)
    case 2 => Some(SunCloud)
    case 3 => Some(Cloud)
    case 45 => Some(Fog)
    case 48 => Some(Fog)
    case 51 => Some(SunRainCloud)
    case 53 => Some(SunRainCloud)
    case 55 => Some(RainCloud)
    case 61 => Some(RainCloud)
    case 63 => Some(RainCloud)
    case 65 => Some(ThunderCloud)
    case 71 => Some(SnowCloud)
    case 73 => Some(SnowCloud)
    case 75 => Some(Snowflake)
    case 77 => Some(Snowflake)
    case 80 => Some(SunRainCloud)
    case 81 => Some(RainCloud)
    case 82 => Some(ThunderCloud)
    case 85 => Some(SnowCloud)
    case 86 => Some(Snowflake)
    case 95 => Some(ThunderCloud)
    case 96 => Some(ThunderCloud)
    case 99 => Some(ThunderCloud)
    case _ => None
  }

  /** `getWeatherIcon(weatherCode, isDay)`: the entry, or the default when there is none
    * (every entry is a non-empty string, so `||` falls back only for a missing entry). An
    * icon is never empty, and every code the server does not describe gets the default. */
  function WeatherIcon(code: int, isDay: bool): (icon: string)
    ensures |icon| > 0
    ensures code !in DescribedCodes ==> icon == DefaultIcon
  {
    IconEntry(code, isDay).GetOr(DefaultIcon)
  }

  /** The icon table lists exactly the codes the server has a description for. */
  lemma TableCoversDescribedCodes(code: int, isDay: bool)
    ensures IconEntry(code, isDay).Some? <==> code in DescribedCodes
  {
  }

  /** The default is shown for every unlisted code, and for no listed code except code 1 by
    * day, whose own icon is the same emoji. */
  lemma DefaultIconCases(code: int, isDay: bool)
    ensures WeatherIcon(code, isDay) == DefaultIcon <==>
      code !in DescribedCodes || (code == 1 && isDay)
  {
    assert Sun[0] != DefaultIcon[0] && Moon[0] != DefaultIcon[0] && SunCloud[0] != DefaultIcon[0];
    assert Cloud[0] != DefaultIcon[0] && Fog[0] != DefaultIcon[0];
    assert SunRainCloud[0] != DefaultIcon[0] && RainCloud[0] != DefaultIcon[0];
    assert ThunderCloud[0] != DefaultIcon[0] && SnowCloud[0] != DefaultIcon[0];
    assert Snowflake[0] != DefaultIcon[0];
  }

  /** Only the clear-sky codes 0 and 1 change with daylight. */
  lemma OnlyClearSkyDependsOnDaylight(code: int)
    ensures WeatherIcon(code, true) != WeatherIcon(code, false) <==> code == 0 || code == 1
  {
    assert Sun[0] != Moon[0] && SunSmallCloud[0] != Moon[0];
  }
}
