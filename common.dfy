/** Wire keys, fixed-width integers and the two record layouts the
    companion phone process sends to the watch (src/common.h). */
module Common {

  datatype Option<+T> = None | Some(value: T)

  /** One octet of a message payload. */
  type Byte = b: int | 0 <= b < 0x100

  /** The C integer types used by the records. */
  type Int8 = x: int | -0x80 <= x < 0x80
  type Int16 = x: int | -0x8000 <= x < 0x8000
  /** `time_t`, whose width the C platform chooses; fixed here at 64 bits. */
  type Int64 = x: int | -0x8000_0000_0000_0000 <= x < 0x8000_0000_0000_0000

  /** `char city[21]`: up to 20 visible bytes and a terminating NUL. */
  type CityBuffer = s: seq<Byte> | |s| == 21 witness seq(21, _ => 0)
  /** `char wind_direction[4]`: a compass code such as "NNE" and a NUL. */
  type CompassBuffer = s: seq<Byte> | |s| == 4 witness seq(4, _ => 0)
  /** `int16_t x[10]`: one value per forecast slot. */
  type Slots = s: seq<Int16> | |s| == FORECAST_SLOTS witness seq(FORECAST_SLOTS, _ => 0)

  const FORECAST_SLOTS: nat := 10

  /** Message keys of the AppMessage dictionary. */
  const RECONNECT_KEY: nat := 0
  const REQUEST_CURRENT_WEATHER_KEY: nat := 32
  const CURRENT_WEATHER_RESPONSE_KEY: nat := 33
  const REQUEST_WEATHER_FORECAST_KEY: nat := 34
  const WEATHER_FORECAST_RESPONSE_KEY: nat := 35

  /** The icon value the companion sends when its weather request failed. */
  const FAILED_ICON: Int16 := -1

  datatype CurrentWeather = CurrentWeather(
    icon: Int16,
    temperature: Int16,
    city: CityBuffer,
    metricUnits: bool,
    sunrise: Int64,
    sunset: Int64,
    humidity: Int8,         // percent
    pressure: Int16,        // hPa
    windSpeed: Int16,       // kph
    windDirection: CompassBuffer)

  datatype WeatherForecast = WeatherForecast(
    icon: Slots,
    temperatureMin: Slots,
    temperatureMax: Slots,
    city: CityBuffer,
    metricUnits: bool)

  /** The records as zero-initialised static storage holds them before
      the first response arrives. */
  const ZERO_CURRENT: CurrentWeather :=
    CurrentWeather(0, 0, Zeros(21), false, 0, 0, 0, 0, 0, Zeros(4))
  const ZERO_FORECAST: WeatherForecast :=
    WeatherForecast(Zeros(FORECAST_SLOTS), Zeros(FORECAST_SLOTS), Zeros(FORECAST_SLOTS), Zeros(21), false)

  function Zeros(n: nat): (r: seq<Byte>)
    ensures |r| == n && forall i :: 0 <= i < n ==> r[i] == 0
  {
    if n == 0 then [] else Zeros(n - 1) + [0]
  }

  /** The five keys are pairwise distinct, so a lookup by one key never
      finds the entry written under another. */
  lemma KeysDistinct()
    ensures |{RECONNECT_KEY, REQUEST_CURRENT_WEATHER_KEY, CURRENT_WEATHER_RESPONSE_KEY,
              REQUEST_WEATHER_FORECAST_KEY, WEATHER_FORECAST_RESPONSE_KEY}| == 5
  {
  }

  /** Every index of the forecast scan is in bounds for all three slot
      arrays, and the sentinel and negative temperatures fit an Int16. */
  lemma SlotIndexInBounds(f: WeatherForecast, k: nat)
    requires k < FORECAST_SLOTS
    ensures k < |f.icon| && k < |f.temperatureMin| && k < |f.temperatureMax|
  {
  }
}
