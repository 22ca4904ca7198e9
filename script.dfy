/**
 * The decisions the dashboard page (html/script.js, updateWeatherData) makes
 * from the readings it fetches every thirty seconds: the compass point of the
 * wind direction, the sun or moon icon beside the temperature, the glyph of
 * the moon phase, and whether a humidex or a wind-chill line is shown.
 *
 * Values the page reads with parseFloat are `Option<real>`, with None for
 * NaN. Dates are integer milliseconds, with None for an Invalid Date. The
 * numbers the page formats with toFixed are represented by the value of the
 * formatted text.
 */
module Script {

  import opened Wrappers
  import Utils

  // ---------------------------------------------------------------------
  // Wind direction
  // ---------------------------------------------------------------------

  /** The sixteen compass points, clockwise from north. */
  const Directions: seq<string> := [
    "N", "NNE", "NE", "ENE", "E", "ESE", "SE", "SSE",
    "S", "SSW", "SW", "WSW", "W", "WNW", "NW", "NNW"
  ]

  /** JavaScript's `index % 16`: the remainder truncated toward zero, with the sign of the index. */
  function JsRem16(a: int): (r: int)
    ensures -16 < r < 16
    ensures a >= 0 ==> r == a % 16
    ensures a < 0 ==> r <= 0 && (a - r) % 16 == 0
  {
    if a >= 0 then a % 16 else -((-a) % 16)
  }

  /** Math.floor(deg / 22.5 + 0.5): the number of the 22.5-degree sector centred on a compass point. */
  function Sector(deg: real): int {
    (deg / 22.5 + 0.5).Floor
  }

  /**
   * The compass point the page shows for a wind direction: directions[index % 16].
   * An index whose remainder is negative, or a direction that is NaN, reads
   * past the array and gives undefined (None).
   */
  function Cardinal(deg: Option<real>): (r: Option<string>)
    ensures deg.None? ==> r.None?
    ensures r.Some? ==> r.value in Directions
  {
    match deg
    case None => None
    case Some(d) =>
      var i := JsRem16(Sector(d));
      if i >= 0 then Some(Directions[i]) else None
  }

  /** The sector number of a direction is the k whose 22.5-degree band around 22.5 k holds it. */
  lemma SectorOf(deg: real, k: int)
    requires 22.5 * (k as real) - 11.25 <= deg < 22.5 * (k as real) + 11.25
    ensures Sector(deg) == k
  {
    var x := deg / 22.5 + 0.5;
    assert (k as real) <= x < (k as real) + 1.0;
  }

  /** A direction within 11.25 degrees of the k-th compass point (counting round and round from north) is shown as that point. */
  lemma CardinalNearest(deg: real, k: int)
    requires k >= 0
    requires 22.5 * (k as real) - 11.25 <= deg < 22.5 * (k as real) + 11.25
    ensures Cardinal(Some(deg)) == Some(Directions[k % 16])
  {
    SectorOf(deg, k);
  }

  /**
   * Every direction from -11.25 degrees on has a name; the directions of the
   * sector just below that have none, since their index -1 does not wrap.
   */
  lemma CardinalDefined(deg: real)
    ensures deg >= -11.25 ==> Cardinal(Some(deg)).Some?
    ensures -33.75 <= deg < -11.25 ==> Cardinal(Some(deg)).None?
  {
    if -33.75 <= deg < -11.25 {
      SectorOf(deg, -1);
    }
  }

  /** A full turn more names the same point. */
  lemma CardinalPeriodic(deg: real)
    requires deg >= -11.25
    ensures Cardinal(Some(deg + 360.0)) == Cardinal(Some(deg))
  {
    var k := Sector(deg);
    SectorOf(deg + 360.0, k + 16);
    assert JsRem16(k + 16) == JsRem16(k);
  }

  /** North at 0 and 360 degrees, the cardinal points at the quarter turns, and the edges of the northern sector. */
  lemma CardinalSamples()
    ensures Cardinal(Some(0.0)) == Some("N")
    ensures Cardinal(Some(360.0)) == Some("N")
    ensures Cardinal(Some(90.0)) == Some("E")
    ensures Cardinal(Some(180.0)) == Some("S")
    ensures Cardinal(Some(270.0)) == Some("W")
    ensures Cardinal(Some(348.75)) == Some("N")
    ensures Cardinal(Some(348.7)) == Some("NNW")
    ensures Cardinal(Some(11.25)) == Some("NNE")
  {
    CardinalNearest(0.0, 0);
    CardinalNearest(360.0, 16);
    CardinalNearest(90.0, 4);
    CardinalNearest(180.0, 8);
    CardinalNearest(270.0, 12);
    CardinalNearest(348.75, 16);
    CardinalNearest(348.7, 15);
    CardinalNearest(11.25, 1);
  }

  // ---------------------------------------------------------------------
  // Sun or moon icon
  // ---------------------------------------------------------------------

  const SunIcon: string := "fas fa-sun"
  const MoonIcon: string := "fas fa-moon"

  /**
   * The icon class beside the temperature, from the current time and the
   * sunrise and sunset the page parsed. A comparison with an Invalid Date is
   * false, so a missing sunrise or sunset gives the moon.
   */
  function TemperatureIcon(now: int, sunrise: Option<int>, sunset: Option<int>): (icon: string)
    ensures icon == SunIcon || icon == MoonIcon
  {
    if sunrise.Some? && sunset.Some? && now >= sunrise.value && now < sunset.value then SunIcon else MoonIcon
  }

  /** The sun is shown exactly from sunrise up to, not including, sunset; the moon at every other time. */
  lemma SunIffDaylight(now: int, sunrise: int, sunset: int)
    ensures TemperatureIcon(now, Some(sunrise), Some(sunset)) == SunIcon <==> sunrise <= now < sunset
    ensures TemperatureIcon(now, Some(sunrise), Some(sunset)) == MoonIcon <==> !(sunrise <= now < sunset)
  {
  }

  /** Without a valid sunrise or sunset the moon is shown whatever the time. */
  lemma InvalidTimesGiveMoon(now: int, sunrise: Option<int>, sunset: Option<int>)
    requires sunrise.None? || sunset.None?
    ensures TemperatureIcon(now, sunrise, sunset) == MoonIcon
  {
  }

  // ---------------------------------------------------------------------
  // Moon glyph
  // ---------------------------------------------------------------------

  /** The first of the eight moon-phase symbols of Unicode, U+1F311 NEW MOON SYMBOL. */
  const NewMoonCode: int := 0x1F311

  /** The glyph of the moon icon for the phase name the /moon endpoint sent (the switch on moonData.phase). */
  function MoonGlyph(phase: string): (g: string)
    ensures |g| == 1
  {
    if phase == "New Moon" then "\U{1F311}"
    else if phase == "Waxing Crescent" then "\U{1F312}"
    else if phase == "First Quarter" then "\U{1F313}"
    else if phase == "Waxing Gibbous" then "\U{1F314}"
    else if phase == "Full Moon" then "\U{1F315}"
    else if phase == "Waning Gibbous" then "\U{1F316}"
    else if phase == "Last Quarter" then "\U{1F317}"
    else if phase == "Waning Crescent" then "\U{1F318}"
    else "\U{1F311}"
  }

  /** The i-th phase, counted from new moon, gets the i-th moon symbol of Unicode. */
  lemma MoonGlyphOfPhase(i: nat)
    requires i < |Utils.PhaseNames|
    ensures MoonGlyph(Utils.PhaseNames[i]) == [(NewMoonCode + i) as char]
  {
  }

  /** The eight phases get eight different glyphs. */
  lemma MoonGlyphDistinct(i: nat, j: nat)
    requires i < |Utils.PhaseNames| && j < |Utils.PhaseNames|
    requires MoonGlyph(Utils.PhaseNames[i]) == MoonGlyph(Utils.PhaseNames[j])
    ensures i == j
  {
    MoonGlyphOfPhase(i);
    MoonGlyphOfPhase(j);
    assert [(NewMoonCode + i) as char][0] == [(NewMoonCode + j) as char][0];
  }

  /** A string that names no phase falls to the default branch, the new-moon glyph. */
  lemma MoonGlyphDefault(phase: string)
    requires phase !in Utils.PhaseNames
    ensures MoonGlyph(phase) == [NewMoonCode as char]
  {
  }

  // ---------------------------------------------------------------------
  // Humidex and wind chill
  // ---------------------------------------------------------------------

  /** Which extra line the temperature card gets. */
  datatype Extra = NoExtra | Humidex | WindChill

  /**
   * The branch updateWeatherData takes for the extra line, from the
   * temperature in degrees Celsius and the wind speed in km/h (both as the
   * page formatted them; None for the text "NaN", which compares false).
   */
  function ExtraFor(tempC: Option<real>, windKmh: Option<real>): (e: Extra)
    ensures e == WindChill ==> tempC.Some? && tempC.value <= 10.0
  {
    if tempC.Some? && tempC.value > 20.0 then Humidex
    else if tempC.Some? && tempC.value <= 10.0 && windKmh.Some? && windKmh.value > 4.8 then WindChill
    else NoExtra
  }

  /** The humidex is shown exactly above 20 degrees. */
  lemma HumidexIff(tempC: Option<real>, windKmh: Option<real>)
    ensures ExtraFor(tempC, windKmh) == Humidex <==> tempC.Some? && tempC.value > 20.0
  {
  }

  /** The wind chill is shown exactly at 10 degrees or below with more than 4.8 km/h of wind. */
  lemma WindChillIff(tempC: Option<real>, windKmh: Option<real>)
    ensures ExtraFor(tempC, windKmh) == WindChill <==>
      tempC.Some? && tempC.value <= 10.0 && windKmh.Some? && windKmh.value > 4.8
  {
  }

  /** Between 10 and 20 degrees, and whenever the temperature is NaN, there is no extra line whatever the wind. */
  lemma NoExtraBetween(tempC: Option<real>, windKmh: Option<real>)
    requires tempC.None? || 10.0 < tempC.value <= 20.0
    ensures ExtraFor(tempC, windKmh) == NoExtra
  {
  }

  /** The HTML of the extra line, with the formatted humidex or wind chill; empty when there is none. */
  function ExtraHtml(e: Extra, humidexText: string, windChillText: string): (html: string)
    ensures html == "" <==> e == NoExtra
  {
    match e
    case NoExtra => ""
    case Humidex => "<span style=\"color:#ff5555\">Humidex: <span>" + humidexText + "</span> °C</span>"
    case WindChill => "<span style=\"color:#6272a4\">Wind Chill: <span>" + windChillText + "</span> °C</span>"
  }

  /** The contents of the additional-info element once a non-empty line is written into it. */
  function Shown(html: string): string {
    "<strong>" + html + "</strong>"
  }

  /**
   * The additional-info element after one refresh, as written: the element is
   * assigned only when there is an extra line, so an empty line leaves the
   * previous refresh's contents in place.
   */
  function PanelAsWritten(previous: string, html: string): (panel: string)
    ensures html != "" ==> panel == Shown(html)
    ensures html == "" ==> panel == previous
  {
    if html != "" then Shown(html) else previous
  }

  /** The additional-info element after one refresh, cleared when there is no extra line. */
  function Panel(previous: string, html: string): (panel: string)
    ensures panel == "" <==> html == ""
    ensures html != "" ==> panel == Shown(html)
  {
    if html != "" then Shown(html) else ""
  }

  /**
   * As written, a humidex line survives a drop in temperature: after a
   * refresh at 25 degrees and one at 15 the element still shows the humidex
   * although the branch taken at 15 degrees shows nothing.
   */
  lemma StaleHumidex(humidexText: string)
    ensures var first := PanelAsWritten("", ExtraHtml(ExtraFor(Some(25.0), Some(0.0)), humidexText, ""));
      var second := PanelAsWritten(first, ExtraHtml(ExtraFor(Some(15.0), Some(0.0)), humidexText, ""));
      ExtraFor(Some(15.0), Some(0.0)) == NoExtra && second == Shown(ExtraHtml(Humidex, humidexText, ""))
  {
  }

  /** With the element cleared, what it shows depends only on the latest readings: never on a previous refresh. */
  lemma PanelShowsLatest(previous: string, other: string, tempC: Option<real>, windKmh: Option<real>, hx: string, wc: string)
    ensures var html := ExtraHtml(ExtraFor(tempC, windKmh), hx, wc);
      Panel(previous, html) == Panel(other, html)
      && (Panel(previous, html) == "" <==> ExtraFor(tempC, windKmh) == NoExtra)
  {
  }
}
