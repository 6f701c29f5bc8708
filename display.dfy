/** What the message handler derives for the screen from a decoded
    record: the icon image for an OpenWeatherMap condition id, the
    temperature label and the city label. Labels are the byte strings the
    text layers are given (UTF-8, without the terminating NUL). */
module Display {
  import opened Common

  type Text = seq<Byte>

  /** The four image resources of the WEATHER_ICONS table. */
  datatype IconResource = SunImage | CloudImage | RainImage | SnowImage

  /** WEATHER_ICONS, in table order: Sun, Cloud, Rain, Snow. */
  const WEATHER_ICONS: seq<IconResource> := [SunImage, CloudImage, RainImage, SnowImage]

  /** The index into WEATHER_ICONS chosen for a condition id. It is
      total and always in bounds; the four bands it separates are
      disjoint and cover every id, with 700..800 (fog, mist, clear sky)
      all shown as Sun. */
  function IconIndex(weatherId: int): (r: nat)
    ensures r < |WEATHER_ICONS|
    ensures r == 2 <==> weatherId < 600
    ensures r == 3 <==> 600 <= weatherId < 700
    ensures r == 1 <==> 800 < weatherId
    ensures r == 0 <==> 700 <= weatherId <= 800
  {
    if weatherId < 600 then 2
    else if weatherId < 700 then 3
    else if weatherId > 800 then 1
    else 0
  }

  /** An independent reading of the OpenWeatherMap condition groups:
      2xx thunderstorm, 3xx drizzle and 5xx rain are rain; 6xx snow;
      7xx atmosphere and 800 clear sky are drawn as sun; 801..804 clouds. */
  function GroupImage(weatherId: int): IconResource
    requires 200 <= weatherId < 900
  {
    var group := weatherId / 100;
    if group == 2 || group == 3 || group == 4 || group == 5 then RainImage
    else if group == 6 then SnowImage
    else if group == 7 || weatherId == 800 then SunImage
    else CloudImage
  }

  /** For every id of the condition groups the table lookup agrees with
      the group reading. */
  lemma IconMatchesConditionGroup(weatherId: int)
    requires 200 <= weatherId < 900
    ensures WEATHER_ICONS[IconIndex(weatherId)] == GroupImage(weatherId)
  {
  }

  /** The boundary ids: 599 rain, 600 and 699 snow, 700 and 800 sun,
      801 cloud. */
  lemma IconBoundaries()
    ensures IconIndex(599) == 2 && IconIndex(600) == 3 && IconIndex(650) == 3
    ensures IconIndex(699) == 3 && IconIndex(700) == 0 && IconIndex(800) == 0
    ensures IconIndex(801) == 1
  {
  }

  const MINUS_SIGN: Byte := 0x2D
  const DIGIT_ZERO: Byte := 0x30
  /** U+00B0, as the C literal "°" is stored: two UTF-8 bytes. */
  const DEGREE_SIGN: Text := [0xC2, 0xB0]
  const CELSIUS: Byte := 0x43     // 'C'
  const FAHRENHEIT: Byte := 0x46  // 'F'

  predicate IsDigit(b: Byte) {
    DIGIT_ZERO <= b <= DIGIT_ZERO + 9
  }

  predicate AllDigits(s: Text) {
    forall i :: 0 <= i < |s| ==> IsDigit(s[i])
  }

  /** The value of a string of decimal digits, most significant first. */
  function DigitsValue(s: Text): nat
    requires AllDigits(s)
  {
    if s == [] then 0 else DigitsValue(s[..|s| - 1]) * 10 + (s[|s| - 1] - DIGIT_ZERO)
  }

  /** The decimal digits of `n` without leading zeros. */
  function Digits(n: nat): (r: Text)
    ensures 1 <= |r| && AllDigits(r)
    ensures DigitsValue(r) == n
    ensures |r| > 1 ==> r[0] != DIGIT_ZERO
  {
    if n < 10 then [DIGIT_ZERO + n]
    else
      var r := Digits(n / 10) + [DIGIT_ZERO + n % 10];
      assert r[..|r| - 1] == Digits(n / 10);
      r
  }

  /** What printf's `%d` prints for `n`. */
  function Decimal(n: int): Text {
    if n < 0 then [MINUS_SIGN] + Digits(-n) else Digits(n)
  }

  /** Reads back an optional minus sign followed by at least one digit. */
  function ParseDecimal(s: Text): Option<int> {
    if |s| > 1 && s[0] == MINUS_SIGN && AllDigits(s[1..]) then Some(-(DigitsValue(s[1..]) as int))
    else if |s| > 0 && AllDigits(s) then Some(DigitsValue(s))
    else None
  }

  /** `%d` loses nothing: the label's number parses back to the value. */
  lemma DecimalRoundTrip(n: int)
    ensures ParseDecimal(Decimal(n)) == Some(n)
  {
    if n < 0 {
      var s := Decimal(n);
      assert s[1..] == Digits(-n);
    }
  }

  function UnitLetter(metricUnits: bool): Byte {
    if metricUnits then CELSIUS else FAHRENHEIT
  }

  /** The full text of the format "%d°%c". */
  function Formatted(t: int, unit: Byte): Text {
    Decimal(t) + DEGREE_SIGN + [unit]
  }

  /** What `snprintf` leaves in a buffer of `size` bytes, without the NUL
      it always writes: the text, cut to `size - 1` bytes if it is longer. */
  function Snprintf(size: nat, text: Text): (r: Text)
    requires size > 0
    ensures |r| < size && |r| <= |text| && r == text[..|r|]
    ensures |text| < size ==> r == text
    ensures |text| >= size ==> |r| == size - 1
  {
    if |text| < size then text else text[..size - 1]
  }

  /** The temperature label of src/weather.c:82-84: the buffer is sized by
      printing the 'C' form and then filled with the form of the record's
      own unit. Both forms are equally long, so the label is never cut. */
  function TemperatureLabel(temperature: Int16, metricUnits: bool): (r: Text)
    ensures r == Decimal(temperature) + DEGREE_SIGN + [UnitLetter(metricUnits)]
  {
    var num := |Formatted(temperature, CELSIUS)|;
    Snprintf(num + 1, Formatted(temperature, UnitLetter(metricUnits)))
  }

  /** Reads a temperature label back into its value and unit flag. */
  function ParseTemperatureLabel(s: Text): Option<(int, bool)> {
    if |s| < 3 || s[|s| - 3..|s| - 1] != DEGREE_SIGN then None
    else if s[|s| - 1] != CELSIUS && s[|s| - 1] != FAHRENHEIT then None
    else match ParseDecimal(s[..|s| - 3])
      case None => None
      case Some(t) => Some((t, s[|s| - 1] == CELSIUS))
  }

  /** The label determines the temperature and the unit it was made from. */
  lemma TemperatureLabelRoundTrip(temperature: Int16, metricUnits: bool)
    ensures ParseTemperatureLabel(TemperatureLabel(temperature, metricUnits))
            == Some((temperature as int, metricUnits))
  {
    var s := TemperatureLabel(temperature, metricUnits);
    assert s[..|s| - 3] == Decimal(temperature);
    assert s[|s| - 3..|s| - 1] == DEGREE_SIGN;
    DecimalRoundTrip(temperature);
  }

  /** The text a C string in a fixed buffer shows: the bytes before the
      first NUL, or the whole buffer when it holds none. */
  function CString(buffer: seq<Byte>): (r: Text)
    ensures |r| <= |buffer| && r == buffer[..|r|]
    ensures forall i :: 0 <= i < |r| ==> r[i] != 0
    ensures |r| < |buffer| ==> buffer[|r|] == 0
  {
    if buffer == [] || buffer[0] == 0 then [] else [buffer[0]] + CString(buffer[1..])
  }

  predicate IsAscii(s: string) {
    forall i :: 0 <= i < |s| ==> (s[i] as int) < 0x80
  }

  /** The bytes of an ASCII string literal. */
  function Ascii(s: string): (r: Text)
    requires IsAscii(s)
    ensures |r| == |s| && forall i :: 0 <= i < |s| ==> r[i] == s[i] as int
  {
    seq(|s|, i requires 0 <= i < |s| => s[i] as int)
  }

  const NOT_AVAILABLE: Text := Ascii("N/A")
  const ENABLE_LOCATION: Text := Ascii("Enable Location")
  const REQUEST_FAILED: Text := Ascii("Request Failed")

  /** No status text the handler shows can be mistaken for a temperature
      label: every temperature label ends in the unit letter 'C' or 'F',
      and "N/A", "Enable Location" and "Request Failed" end otherwise. */
  lemma {:induction false} StatusLabelsAreNotTemperatures(temperature: Int16, metricUnits: bool)
    ensures ParseTemperatureLabel(NOT_AVAILABLE) == None
    ensures NOT_AVAILABLE != TemperatureLabel(temperature, metricUnits)
    ensures ENABLE_LOCATION != TemperatureLabel(temperature, metricUnits)
    ensures REQUEST_FAILED != TemperatureLabel(temperature, metricUnits)
  {
    var s := TemperatureLabel(temperature, metricUnits);
    var last := s[|s| - 1];
    assert last == CELSIUS || last == FAHRENHEIT;
    assert NOT_AVAILABLE[|NOT_AVAILABLE| - 1] == 0x41;
    assert ENABLE_LOCATION[|ENABLE_LOCATION| - 1] == 0x6E;
    assert REQUEST_FAILED[|REQUEST_FAILED| - 1] == 0x64;
  }

  /** The label of a current-weather response with icon 800, 21 degrees
      and metric units: "21°C". */
  lemma TemperatureLabelExample()
    ensures TemperatureLabel(21, true) == [0x32, 0x31, 0xC2, 0xB0, CELSIUS]
  {
    assert Digits(21) == [0x32, 0x31];
  }
}
