# smartweather: the watch-side message handler, in Dafny

A Pebble watch-app shows the weather that a companion process on the phone
sends it over AppMessage, a tag-keyed dictionary channel. This project
models the one part of the app with real logic. `received_message` is the
inbound handler. It looks at the message's keys in a fixed priority. It
decodes the `[count][record]` payload of a current-weather or forecast
response. It interprets the count byte and the `-1` icon sentinel. Then it
updates the stored records, the temperature and city labels, and the one
icon bitmap it holds. The model also covers the request it sends
(`send_cmd`), the icon classifier (`get_icon_from_weather_id`), the
window's load and unload hooks, and the record layouts of `common.h`.

Files and modules:

- `common.dfy` (`Common`): fixed-width integer types, the five message
  keys, and the `CurrentWeather` / `WeatherForecast` records. The fields use
  subset types: a 21-byte city buffer, a 4-byte compass code and 10-slot
  arrays.
- `codec.dfy` (`Codec`): an explicit packed little-endian layout of the two
  records in declaration order. It replaces the C code's `memcpy` of host
  memory. `time_t` is fixed at 8 signed bytes. In this packed layout the records are 51 and 82
  bytes. Round trips are proved in both directions.
- `display.dfy` (`Display`): the icon table and classifier, `%d` decimal
  formatting, the `snprintf`-sized temperature label, and the city label
  read from a NUL-terminated buffer. Labels are the bytes the text layer
  receives. The degree sign is UTF-8 `C2 B0`.
- `weather.dfy` (`Weather`): the message and bitmap data types and the
  pure transition function `Handle`. It holds the lemmas about dispatch
  priority and each response path. The class `WeatherApp` holds the
  handler's globals, and its methods are proved to implement `Handle`.

Abstractions: `time(NULL)` is the `now` parameter of `ReceivedMessage`.
Whether the transport can open an outbox is the field `outboxFree`, set by
`SetOutboxFree`. The resource loader is a log of `Create` / `Destroy`
calls. `Replay` checks that at most one bitmap is held at a time. The
forecast loop only writes debug output in the C code. The model records the
entries it reports in `forecastLog` instead.

Three behaviours of the code that may look unintended are kept as written:

- Id 600 gives Snow, because 600 < 700.
- The early "location disabled" and "request failed" returns do not
  release the held icon.
- The failure check on a forecast looks only at `icon[0]`.

One departure from the code: the code reads the count byte and copies a whole record
without looking at the entry's length. `Handle` ignores an empty entry, and
an entry too short for the record it announces. The code as written is
modelled beside it; see "## Findings".

## Model

| member | source | states |
|---|---|---|
| `Common.KeysDistinct` | src/common.h:6-10 | the five wire keys 0, 32, 33, 34, 35 are pairwise distinct |
| `Common.SlotIndexInBounds` | src/common.h:27-29 | every index below 10 is valid for `icon`, `temperature_min` and `temperature_max` alike |
| `Codec.EncodeInt16` | src/common.h:13-14 | an `int16_t` takes two little-endian bytes, which decode back to the same value, negatives and the -1 sentinel included |
| `Codec.EncodeInt8` | src/common.h:20 | an `int8_t` humidity takes one byte and decodes back unchanged |
| `Codec.EncodeInt64` | src/common.h:18-19 | a `time_t` (fixed at 64 bits) takes eight bytes and decodes back unchanged |
| `Codec.ToLittleEndian` | src/common.h:12-24 | `width` bytes hold any value below 256^width, and the little-endian reading of them is that value |
| `Codec.LittleEndianBytes` | src/common.h:12-24 | re-encoding the value of any byte string gives back the same bytes |
| `Codec.SlotsRoundTrip` | src/common.h:27-29 | an array of Int16 slots encodes to twice its length in bytes and decodes back slot for slot |
| `Codec.SlotsBytes` | src/common.h:27-29 | any even-length byte string decodes to slots that re-encode to the same bytes |
| `Codec.DecodeCurrent` | src/weather.c:59 | the record copy, read from the packed 51-byte layout. It gives a record exactly when at least 51 bytes are given; the C code copies whatever the length, and this guard is the correction under "## Findings" |
| `Codec.DecodeForecast` | src/weather.c:109 | the record copy, read from the packed 82-byte layout. It gives a record exactly when at least 82 bytes are given; the C code copies whatever the length, and this guard is the correction under "## Findings" |
| `Codec.CurrentRoundTrip` | src/common.h:12-24 | decoding an encoded CurrentWeather, whatever bytes follow it, gives every field back: icon, temperature, city, metric_units, sunrise, sunset, humidity, pressure, wind_speed, wind_direction |
| `Codec.ForecastRoundTrip` | src/common.h:26-32 | decoding an encoded WeatherForecast gives back all ten slots of the three arrays, the city and the unit flag |
| `Codec.CurrentBytesRoundTrip` | src/common.h:12-24 | 51 record bytes whose bool byte is 0 or 1 decode to a record that re-encodes to exactly those bytes |
| `Codec.ForecastBytesRoundTrip` | src/common.h:26-32 | 82 record bytes whose bool byte is 0 or 1 decode to a record that re-encodes to exactly those bytes |
| `Display.IconIndex` | src/weather.c:35-45 | the classifier is total and its index is below 4, the size of WEATHER_ICONS; it gives 2 (Rain) exactly for id < 600, 3 (Snow) exactly for 600..699, 1 (Cloud) exactly for id > 800 and 0 (Sun) exactly for 700..800 |
| `Display.IconMatchesConditionGroup` | src/weather.c:14-45 | for ids 200..899, the image looked up in WEATHER_ICONS matches the OpenWeatherMap condition group: 2xx-5xx Rain, 6xx Snow, 7xx and 800 Sun, 801+ Cloud |
| `Display.IconBoundaries` | src/weather.c:35-45 | ids 599 give Rain; 600, 650 and 699 give Snow; 700 and 800 give Sun; 801 gives Cloud |
| `Display.Digits` | src/weather.c:84 | `%d` of a non-negative value prints at least one digit, has no leading zero, and the digits read back as the value |
| `Display.DecimalRoundTrip` | src/weather.c:84 | the decimal text of any temperature, negative ones included, parses back to that temperature |
| `Display.Snprintf` | src/weather.c:82-84 | what snprintf leaves in a buffer of `size` bytes is a prefix of the text: all of it when the text fits, and exactly `size - 1` bytes when it does not |
| `Display.TemperatureLabel` | src/weather.c:82-84 | the buffer sized from the 'C' form holds the 'F' form without truncation, so the label is exactly decimal(temperature), the degree sign, and 'C' when metric_units else 'F' |
| `Display.TemperatureLabelRoundTrip` | src/weather.c:82-86 | the temperature label determines both the temperature and the unit flag it was made from |
| `Display.TemperatureLabelExample` | src/weather.c:82-84 | 21 degrees in metric units give the label "21°C" |
| `Display.CString` | src/weather.c:87 | the city label is the prefix of the 21-byte buffer before its first NUL: it holds no NUL, and it ends at a NUL or at the end of the buffer |
| `Display.StatusLabelsAreNotTemperatures` | src/weather.c:61-62 | "N/A", "Enable Location" and "Request Failed" (line 67) differ from every temperature label, and "N/A" on the temperature layer does not read as a temperature |
| `Weather.ValidSlots` | src/weather.c:124-129 | the number of leading forecast slots is at most the number of slots; every counted slot's icon differs from -1; the slot after them, if any, holds -1 |
| `Weather.ScanForecast` | src/weather.c:123-146 | the forecast loop reports at most 10 days, stops at the first icon -1 whatever follows, and reports day k with timestamp now + 86400·k, the raw icon and the same slot's min and max |
| `Weather.UnrecognisedIgnored` | src/weather.c:102-105 | a message with none of RECONNECT, CURRENT_WEATHER_RESPONSE and WEATHER_FORECAST_RESPONSE changes nothing |
| `Weather.ReconnectOnlyRequests` | src/weather.c:48-51 | with RECONNECT present, even beside response entries, the only change is one REQUEST appended to the outbox, and only when the outbox is free |
| `Weather.CurrentBeforeForecast` | src/weather.c:53-105 | when a current-weather response is present, the forecast entry of the same message is ignored |
| `Weather.LocationDisabled` | src/weather.c:56-64 | count byte 0 in either response (lines 106-114 for the forecast) gives "N/A" and "Enable Location"; nothing else changes, the stored records included, whatever bytes follow |
| `Weather.Send` | src/weather.c:22-32 | the request function: one REQUEST appended when the outbox is free, and nothing else in the state changes |
| `Weather.HandleEffect` | src/weather.c:47-150 | over any message, `Handle` sends only on RECONNECT and only through a free outbox; the bitmap log and the forecast log only grow |
| `Weather.HandleCurrentEffect` | src/weather.c:53-101 | `HandleCurrent` never touches the forecast, outbox or forecast log; it only appends to the bitmap log; it stores a record only when the entry's count byte is above 0 and the entry decodes to it |
| `Weather.ShowCurrentEffect` | src/weather.c:71-87 | `ShowCurrent` stores the record, sets both labels, holds a bitmap made from WEATHER_ICONS[classifier], only appends to the bitmap log, and leaves the forecast, outbox and forecast log |
| `Weather.HandleForecastEffect` | src/weather.c:103-147 | `HandleForecast` never touches the current record, bitmap or outbox; the temperature label stays or becomes "N/A"; it appends at most ten days; it stores a record only when the count byte is above 0 and the entry decodes to it |
| `Weather.CurrentRequestFailed` | src/weather.c:58-69 | for any entry with count > 0 that decodes to a record with icon -1, whatever its bool byte: the record is stored, the city label reads "Request Failed", and the temperature label and bitmap stay |
| `Weather.CurrentShown` | src/weather.c:71-87 | for any entry with count > 0 that decodes to a record with another icon: the record is stored; the temperature label becomes decimal, degree sign and unit letter; the city label becomes the record's city; the held bitmap is destroyed before a new one is made from WEATHER_ICONS[classifier]; the forecast and outbox stay |
| `Weather.ForecastRequestFailed` | src/weather.c:106-119 | for any forecast entry with count > 0 that decodes to a record with icon[0] = -1: the record is stored, the city label reads "Request Failed", and no day is reported |
| `Weather.EncodedCurrentCarried` | src/weather.c:56-59 | an entry of a count byte above 0, an encoded record and any trailing bytes carries that record, so the two current-weather lemmas apply to it |
| `Weather.EncodedForecastCarried` | src/weather.c:106-109 | the same for a forecast entry |
| `Weather.ForecastShown` | src/weather.c:116-146 | for any forecast entry with count > 0 that decodes to a record with another icon[0]: the forecast is stored and its city shown; the reported days are the slots before the first -1 (1 to 10 of them), with timestamps now + 86400·k; labels other than the city, the bitmap and the current record stay |
| `Weather.ShowCurrentKeepsOneBitmap` | src/weather.c:71-76 | swapping the icon keeps at most one bitmap held and destroys the old one before creating the new one |
| `Weather.HandleKeepsOneBitmap` | src/weather.c:47-150 | every received message keeps the discipline of at most one bitmap held, each destroyed before the next is created |
| `Weather.CopiedAsWritten` | src/weather.c:56-59 | as written, the count byte and the record are read from the entry and the memory after it, with no length check |
| `Weather.CopiedWithinEntry` | src/weather.c:56-59 | for an entry long enough for its record, the as-written copy does not depend on the memory after the entry. When the count byte is above 0, the copy is exactly the bytes the corrected handler decodes, so the correction changes nothing for well-formed entries |
| `Weather.ShortPayloadReadsPastEntry` | src/weather.c:56-59 | as written, for the entry [1], the record copied depends on memory outside the message |
| `Weather.RecordComesFromEntry` | src/weather.c:56-59 | with the corrected length checks, each stored record is unchanged or decoded from bytes inside the entry the handler acted on |
| `Weather.ShortEntryIgnored` | src/weather.c:106-109 | with the corrected length checks, an empty entry, or one announcing a record it does not hold, changes nothing |
| `Weather.WeatherApp.constructor` | src/weather.c:9-12 | the zero-initialised globals: records zero, labels empty, no bitmap held, nothing sent |
| `Weather.WeatherApp.SendCmd` | src/weather.c:22-32 | with no outbox free nothing changes; otherwise exactly one message {32 ↦ 1} is appended; no other field changes |
| `Weather.WeatherApp.WindowLoad` | src/weather.c:172-174 | loading registers the handler and sends the first request |
| `Weather.WeatherApp.WindowUnload` | src/weather.c:177-182 | unloading destroys the held bitmap, if any, so none is live afterwards; nothing else changes |
| `Weather.WeatherApp.ReceivedMessage` | src/weather.c:47-150 | the handler's new state is Handle of the old state, and the one-bitmap invariant is kept |
| `Weather.WeatherApp.ReceiveCurrent` | src/weather.c:53-101 | the current-weather branch, with its early returns, yields HandleCurrent of the old state |
| `Weather.WeatherApp.ShowCurrentWeather` | src/weather.c:71-87 | the success path yields ShowCurrent of the old state and stored record: new icon bitmap, the sized temperature label and the city label |
| `Weather.WeatherApp.ReplaceIcon` | src/weather.c:71-76 | the old bitmap is destroyed first, then one is created from the chosen resource and held |
| `Weather.WeatherApp.ReceiveForecast` | src/weather.c:103-147 | the forecast branch, with its early returns and loop, yields HandleForecast of the old state |
| `Weather.WeatherApp.ShowForecast` | src/weather.c:121-146 | the success path of the forecast branch: the city label of the stored forecast, and the loop's days appended to the log |

## Left out

- Window, layer, font, colour and layout calls (src/weather.c:152-170, 184-186, 189-208). Setting a label is modelled as assigning its text. Showing a bitmap is modelled as holding its handle.
- `localtime` / `strftime` formatting of sunrise, sunset and weekday names, and every `APP_LOG` line. The forecast loop keeps only the per-slot timestamp arithmetic. Its reported entries are recorded, not printed. The unit letter it prints is not recorded.
- `app_message_open` buffer sizing, callback registration mechanics, `app_event_loop`, `init`, `deinit` and `main`. These are transport and runtime plumbing. The callback being registered only between load and unload is the `phase` field.
- `malloc` / `free` of the temperature string. The string that is never freed at unload is also not modelled. The label is a value.
- The label pointers: the text layers keep pointers into `current_weather.city`, `weather_forecast.city` and the temperature buffer. Every path that overwrites one of these also resets the label, so modelling labels as values loses nothing visible.
- Host struct padding and the platform width of `time_t`. The codec uses a fixed packed layout with an 8-byte `time_t` instead.
- `Weather.WeatherApp.ReceivedMessage`: timestamps are unbounded integers, so the 64-bit wrap of `rawtime += 86400` near the end of the `time_t` range is not modelled.
- `Display.CString`: a city buffer with no NUL shows all 21 bytes. The C code would read on past the buffer.
- `Codec.DecodeCurrent`, `Codec.DecodeForecast`: a `bool` byte other than 0 or 1 (byte 25 of a CurrentWeather, byte 81 of a WeatherForecast) reads as true. A C compiler may treat such a byte as undefined. For that reason `Codec.CurrentBytesRoundTrip` and `Codec.ForecastBytesRoundTrip` require that byte to be 0 or 1.
- Loader failure: `gbitmap_create_with_resource` may return NULL, and the `if (icon_bitmap)` guard at src/weather.c:71 then skips the next destroy. The model's loader always succeeds.
- Concurrency: there is none. Everything runs inside one callback.

## Findings

| source | as written | input that shows it | evidently intended | confidence | as-written member | corrected member |
|---|---|---|---|---|---|---|
| src/weather.c:56-59 | `data[0]` is read, and then sizeof(CurrentWeather) bytes are copied from `data + 1`. Neither is checked against the entry's length, and the forecast branch (lines 106-109) does the same. | a CURRENT_WEATHER_RESPONSE_KEY entry with the one byte `[1]`, or an empty entry | a record is taken only from bytes the message carries; a shorter entry is ignored | not executed; medium | `Weather.CopiedAsWritten`, `Weather.ShortPayloadReadsPastEntry` | `Weather.RecordComesFromEntry`, `Weather.ShortEntryIgnored` (used by `Weather.Handle` and `Weather.WeatherApp.ReceivedMessage`) |
