/** An explicit, packed, little-endian byte layout for the two records of
    src/common.h, in their declaration order. It stands in for the raw
    `memcpy` of host memory at src/weather.c:59 and 109, whose padding and
    `time_t` width depend on the C platform.

    CurrentWeather (51 bytes):
      icon 0..2, temperature 2..4, city 4..25, metric_units 25,
      sunrise 26..34, sunset 34..42, humidity 42, pressure 43..45,
      wind_speed 45..47, wind_direction 47..51
    WeatherForecast (82 bytes):
      icon 0..20, temperature_min 20..40, temperature_max 40..60,
      city 60..81, metric_units 81 */
module Codec {
  import opened Common

  const CURRENT_WEATHER_SIZE: nat := 51
  const WEATHER_FORECAST_SIZE: nat := 82

  /** 256 to the power `width`: the number of values `width` bytes hold. */
  function Pow256(width: nat): (r: nat)
    ensures r >= 1
  {
    if width == 0 then 1 else 256 * Pow256(width - 1)
  }

  /** The unsigned value of a little-endian byte string. */
  function LittleEndian(s: seq<Byte>): (r: nat)
    ensures r < Pow256(|s|)
  {
    if s == [] then 0 else s[0] + 256 * LittleEndian(s[1..])
  }

  /** The `width` low-order bytes of `n`, least significant first. */
  function ToLittleEndian(n: nat, width: nat): (r: seq<Byte>)
    requires n < Pow256(width)
    ensures |r| == width
    ensures LittleEndian(r) == n
  {
    if width == 0 then [] else [n % 256] + ToLittleEndian(n / 256, width - 1)
  }

  /** Half the values of `width` bytes: the first one whose top bit is set. */
  function Half(width: nat): (r: nat)
    requires width > 0
    ensures 2 * r == Pow256(width)
  {
    128 * Pow256(width - 1)
  }

  /** Two's-complement reading of a little-endian byte string. */
  function SignedLittleEndian(s: seq<Byte>): (r: int)
    requires |s| > 0
    ensures -(Half(|s|) as int) <= r < Half(|s|)
  {
    var u := LittleEndian(s);
    if u < Half(|s|) then u else u - Pow256(|s|)
  }

  /** Two's-complement bytes of `x` in `width` bytes. */
  function ToSignedLittleEndian(x: int, width: nat): (r: seq<Byte>)
    requires width > 0 && -(Half(width) as int) <= x < Half(width)
    ensures |r| == width
    ensures SignedLittleEndian(r) == x
  {
    ToLittleEndian(if x < 0 then x + Pow256(width) else x, width)
  }

  /** Re-encoding the value of a byte string gives the same bytes. */
  lemma {:induction false} LittleEndianBytes(s: seq<Byte>)
    ensures ToLittleEndian(LittleEndian(s), |s|) == s
  {
    if s != [] {
      var v := LittleEndian(s);
      assert v % 256 == s[0] && v / 256 == LittleEndian(s[1..]);
      LittleEndianBytes(s[1..]);
    }
  }

  lemma SignedLittleEndianBytes(s: seq<Byte>)
    requires |s| > 0
    ensures ToSignedLittleEndian(SignedLittleEndian(s), |s|) == s
  {
    LittleEndianBytes(s);
  }

  lemma Pow256Widths()
    ensures Pow256(1) == 0x100 && Pow256(2) == 0x1_0000
    ensures Pow256(8) == 0x1_0000_0000_0000_0000
    ensures Half(1) == 0x80 && Half(2) == 0x8000 && Half(8) == 0x8000_0000_0000_0000
  {
  }

  function DecodeInt8(s: seq<Byte>): Int8
    requires |s| == 1
  {
    Pow256Widths();
    SignedLittleEndian(s)
  }

  function DecodeInt16(s: seq<Byte>): Int16
    requires |s| == 2
  {
    Pow256Widths();
    SignedLittleEndian(s)
  }

  function DecodeInt64(s: seq<Byte>): Int64
    requires |s| == 8
  {
    Pow256Widths();
    SignedLittleEndian(s)
  }

  function EncodeInt8(x: Int8): (r: seq<Byte>)
    ensures |r| == 1 && DecodeInt8(r) == x
  {
    Pow256Widths();
    ToSignedLittleEndian(x, 1)
  }

  function EncodeInt16(x: Int16): (r: seq<Byte>)
    ensures |r| == 2 && DecodeInt16(r) == x
  {
    Pow256Widths();
    ToSignedLittleEndian(x, 2)
  }

  function EncodeInt64(x: Int64): (r: seq<Byte>)
    ensures |r| == 8 && DecodeInt64(r) == x
  {
    Pow256Widths();
    ToSignedLittleEndian(x, 8)
  }

  /** A C `bool` occupies one byte; any nonzero byte reads as true. */
  function EncodeBool(b: bool): Byte { if b then 1 else 0 }
  function DecodeBool(b: Byte): bool { b != 0 }

  /** Consecutive Int16 values, each in two little-endian bytes. */
  function EncodeSlots(xs: seq<Int16>): (r: seq<Byte>)
    ensures |r| == 2 * |xs|
  {
    if xs == [] then [] else EncodeInt16(xs[0]) + EncodeSlots(xs[1..])
  }

  function DecodeSlots(s: seq<Byte>): (r: seq<Int16>)
    requires |s| % 2 == 0
    ensures |r| == |s| / 2
  {
    if s == [] then [] else [DecodeInt16(s[..2])] + DecodeSlots(s[2..])
  }

  lemma {:induction false} SlotsRoundTrip(xs: seq<Int16>)
    ensures DecodeSlots(EncodeSlots(xs)) == xs
  {
    if xs != [] {
      var e := EncodeSlots(xs);
      assert e[..2] == EncodeInt16(xs[0]);
      assert e[2..] == EncodeSlots(xs[1..]);
      SlotsRoundTrip(xs[1..]);
    }
  }

  lemma Int16Bytes(s: seq<Byte>)
    requires |s| == 2
    ensures EncodeInt16(DecodeInt16(s)) == s
  {
    SignedLittleEndianBytes(s);
  }

  lemma {:induction false} SlotsBytes(s: seq<Byte>)
    requires |s| % 2 == 0
    ensures EncodeSlots(DecodeSlots(s)) == s
  {
    if s != [] {
      var xs := DecodeSlots(s);
      assert xs[1..] == DecodeSlots(s[2..]);
      Int16Bytes(s[..2]);
      SlotsBytes(s[2..]);
      assert s == s[..2] + s[2..];
    }
  }

  function EncodeCurrent(w: CurrentWeather): (r: seq<Byte>)
    ensures |r| == CURRENT_WEATHER_SIZE
  {
    (EncodeInt16(w.icon) + EncodeInt16(w.temperature) + w.city + [EncodeBool(w.metricUnits)])
    + (EncodeInt64(w.sunrise) + EncodeInt64(w.sunset) + EncodeInt8(w.humidity)
       + EncodeInt16(w.pressure) + EncodeInt16(w.windSpeed) + w.windDirection)
  }

  /** Reads one CurrentWeather from the front of `s`; bytes after the
      record are not looked at. A string too short to hold the record
      gives None. */
  function DecodeCurrent(s: seq<Byte>): (r: Option<CurrentWeather>)
    ensures r.Some? <==> |s| >= CURRENT_WEATHER_SIZE
  {
    if |s| < CURRENT_WEATHER_SIZE then None
    else Some(CurrentWeather(
      icon := DecodeInt16(s[0..2]),
      temperature := DecodeInt16(s[2..4]),
      city := s[4..25],
      metricUnits := DecodeBool(s[25]),
      sunrise := DecodeInt64(s[26..34]),
      sunset := DecodeInt64(s[34..42]),
      humidity := DecodeInt8(s[42..43]),
      pressure := DecodeInt16(s[43..45]),
      windSpeed := DecodeInt16(s[45..47]),
      windDirection := s[47..51]))
  }

  function EncodeForecast(f: WeatherForecast): (r: seq<Byte>)
    ensures |r| == WEATHER_FORECAST_SIZE
  {
    EncodeSlots(f.icon) + EncodeSlots(f.temperatureMin) + EncodeSlots(f.temperatureMax)
    + f.city + [EncodeBool(f.metricUnits)]
  }

  /** Reads one WeatherForecast from the front of `s`, as DecodeCurrent. */
  function DecodeForecast(s: seq<Byte>): (r: Option<WeatherForecast>)
    ensures r.Some? <==> |s| >= WEATHER_FORECAST_SIZE
  {
    if |s| < WEATHER_FORECAST_SIZE then None
    else Some(WeatherForecast(
      icon := DecodeSlots(s[0..20]),
      temperatureMin := DecodeSlots(s[20..40]),
      temperatureMax := DecodeSlots(s[40..60]),
      city := s[60..81],
      metricUnits := DecodeBool(s[81])))
  }

  /** Decoding an encoded CurrentWeather gives back every field, whatever
      bytes follow the record in the payload. */
  lemma CurrentRoundTrip(w: CurrentWeather, rest: seq<Byte>)
    ensures DecodeCurrent(EncodeCurrent(w) + rest) == Some(w)
  {
    var s := EncodeCurrent(w) + rest;
    assert s[0..2] == EncodeInt16(w.icon);
    assert s[2..4] == EncodeInt16(w.temperature);
    assert s[4..25] == w.city;
    assert s[25] == EncodeBool(w.metricUnits);
    assert s[26..34] == EncodeInt64(w.sunrise);
    assert s[34..42] == EncodeInt64(w.sunset);
    assert s[42..43] == EncodeInt8(w.humidity);
    assert s[43..45] == EncodeInt16(w.pressure);
    assert s[45..47] == EncodeInt16(w.windSpeed);
    assert s[47..51] == w.windDirection;
  }

  /** Decoding an encoded WeatherForecast gives back every slot of the
      three arrays, the city and the unit flag. */
  lemma ForecastRoundTrip(f: WeatherForecast, rest: seq<Byte>)
    ensures DecodeForecast(EncodeForecast(f) + rest) == Some(f)
  {
    var s := EncodeForecast(f) + rest;
    assert s[0..20] == EncodeSlots(f.icon);
    assert s[20..40] == EncodeSlots(f.temperatureMin);
    assert s[40..60] == EncodeSlots(f.temperatureMax);
    assert s[60..81] == f.city;
    assert s[81] == EncodeBool(f.metricUnits);
    SlotsRoundTrip(f.icon);
    SlotsRoundTrip(f.temperatureMin);
    SlotsRoundTrip(f.temperatureMax);
  }

  /** The other direction: a record's bytes whose `bool` byte is 0 or 1
      decode to a record that re-encodes to exactly those bytes, so the
      layout loses nothing but the spelling of `true`. */
  lemma CurrentBytesRoundTrip(s: seq<Byte>)
    requires |s| >= CURRENT_WEATHER_SIZE && s[25] <= 1
    ensures EncodeCurrent(DecodeCurrent(s).value) == s[..CURRENT_WEATHER_SIZE]
  {
    CurrentHeadBytes(s);
    CurrentTailBytes(s);
    assert s[..51] == s[..26] + s[26..51];
  }

  /** The first 26 bytes of a CurrentWeather: icon, temperature, city and
      the unit flag. */
  lemma CurrentHeadBytes(s: seq<Byte>)
    requires |s| >= CURRENT_WEATHER_SIZE && s[25] <= 1
    ensures var w := DecodeCurrent(s).value;
      s[..26] == EncodeInt16(w.icon) + EncodeInt16(w.temperature) + w.city + [EncodeBool(w.metricUnits)]
  {
    SignedLittleEndianBytes(s[0..2]);
    SignedLittleEndianBytes(s[2..4]);
    assert s[..4] == s[0..2] + s[2..4];
    assert s[..25] == s[..4] + s[4..25];
    assert s[..26] == s[..25] + [s[25]];
  }

  /** The remaining 25 bytes: sunrise, sunset, humidity, pressure, wind
      speed and wind direction. */
  lemma CurrentTailBytes(s: seq<Byte>)
    requires |s| >= CURRENT_WEATHER_SIZE
    ensures var w := DecodeCurrent(s).value;
      s[26..51] == EncodeInt64(w.sunrise) + EncodeInt64(w.sunset) + EncodeInt8(w.humidity)
                   + EncodeInt16(w.pressure) + EncodeInt16(w.windSpeed) + w.windDirection
  {
    SignedLittleEndianBytes(s[26..34]);
    SignedLittleEndianBytes(s[34..42]);
    SignedLittleEndianBytes(s[42..43]);
    SignedLittleEndianBytes(s[43..45]);
    SignedLittleEndianBytes(s[45..47]);
    assert s[26..42] == s[26..34] + s[34..42];
    assert s[26..43] == s[26..42] + s[42..43];
    assert s[26..45] == s[26..43] + s[43..45];
    assert s[26..47] == s[26..45] + s[45..47];
    assert s[26..51] == s[26..47] + s[47..51];
  }

  lemma ForecastBytesRoundTrip(s: seq<Byte>)
    requires |s| >= WEATHER_FORECAST_SIZE && s[81] <= 1
    ensures EncodeForecast(DecodeForecast(s).value) == s[..WEATHER_FORECAST_SIZE]
  {
    SlotsBytes(s[0..20]);
    SlotsBytes(s[20..40]);
    SlotsBytes(s[40..60]);
    assert s[..40] == s[0..20] + s[20..40];
    assert s[..60] == s[..40] + s[40..60];
    assert s[..81] == s[..60] + s[60..81];
    assert s[..82] == s[..81] + [s[81]];
  }
}
