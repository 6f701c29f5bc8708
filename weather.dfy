/** The inbound-message handler of the watch-app (src/weather.c) and the
    state it updates: the stored records, the two label texts, the one
    icon bitmap it holds, and the outbox it sends its request through.

    `Handle` states, as a function of the old state, what one received
    message does; `WeatherApp.ReceivedMessage` is the imperative handler
    proved to do exactly that. */
module Weather {
  import opened Common
  import opened Codec
  import opened Display

  /** The value of one AppMessage dictionary entry. */
  datatype Value = Uint8(u: Byte) | ByteArray(bytes: seq<Byte>)

  /** `tuple->value->data`: the bytes of an entry. */
  function Data(v: Value): seq<Byte> {
    match v
    case Uint8(u) => [u]
    case ByteArray(bytes) => bytes
  }

  /** A received or sent message: entries by key. */
  type Dictionary = map<nat, Value>

  /** The only message the watch sends: REQUEST_CURRENT_WEATHER_KEY = 1. */
  const REQUEST: Dictionary := map[REQUEST_CURRENT_WEATHER_KEY := Uint8(1)]

  /** A bitmap created from an image resource; `serial` tells apart
      bitmaps created from the same resource. */
  datatype Bitmap = Bitmap(resource: IconResource, serial: nat)

  /** The calls the handler makes on the resource loader. */
  datatype BitmapEvent = Create(bitmap: Bitmap) | Destroy(bitmap: Bitmap)

  /** The bitmap held after one more loader call, or None when the call
      creates a second bitmap while one is held or destroys one that is
      not held. */
  function Apply(held: Option<Bitmap>, e: BitmapEvent): Option<Option<Bitmap>> {
    match e
    case Create(b) => if held.None? then Some(Some(b)) else None
    case Destroy(b) => if held == Some(b) then Some(None) else None
  }

  /** Replays a log of loader calls from "nothing held": Some(held) when
      at most one bitmap was ever held at a time and each was destroyed
      before the next was created. */
  function Replay(log: seq<BitmapEvent>): Option<Option<Bitmap>> {
    if log == [] then Some(None)
    else match Replay(log[..|log| - 1])
      case None => None
      case Some(held) => Apply(held, log[|log| - 1])
  }

  lemma ReplayAppend(log: seq<BitmapEvent>, e: BitmapEvent)
    ensures Replay(log + [e]) == (if Replay(log).Some? then Apply(Replay(log).value, e) else None)
  {
    assert (log + [e])[..|log|] == log;
  }

  /** One forecast day as the handler reports it: the day's timestamp,
      the raw condition id and the slot's two temperatures. */
  datatype ForecastDay = ForecastDay(time: int, icon: Int16, temperatureMin: Int16, temperatureMax: Int16)

  const SECONDS_PER_DAY: nat := 86400

  /** The number of leading forecast slots before the first FAILED_ICON. */
  function ValidSlots(icons: seq<Int16>): (r: nat)
    ensures r <= |icons|
    ensures forall k :: 0 <= k < r ==> icons[k] != FAILED_ICON
    ensures r < |icons| ==> icons[r] == FAILED_ICON
  {
    if icons == [] || icons[0] == FAILED_ICON then 0 else 1 + ValidSlots(icons[1..])
  }

  /** The days the forecast scan reports for a record received at `now`. */
  function ForecastDays(f: WeatherForecast, now: int): seq<ForecastDay> {
    seq(ValidSlots(f.icon), k requires 0 <= k < ValidSlots(f.icon) =>
      ForecastDay(now + SECONDS_PER_DAY * k, f.icon[k], f.temperatureMin[k], f.temperatureMax[k]))
  }

  /** The whole state of the handler as one value. */
  datatype AppState = AppState(
    current: CurrentWeather,
    forecast: WeatherForecast,
    temperatureText: Text,
    cityText: Text,
    iconBitmap: Option<Bitmap>,
    bitmapLog: seq<BitmapEvent>,
    outboxFree: bool,
    outbox: seq<Dictionary>,
    forecastLog: seq<ForecastDay>)

  /** Static storage before the first message: zeroed records, empty
      labels, no bitmap, nothing sent. */
  function Initial(outboxFree: bool): AppState {
    AppState(ZERO_CURRENT, ZERO_FORECAST, [], [], None, [], outboxFree, [], [])
  }

  /** The bitmap discipline every state of the handler keeps. */
  predicate OneBitmap(s: AppState) {
    Replay(s.bitmapLog) == Some(s.iconBitmap)
  }

  /** send_cmd: one request when the outbox can be opened, nothing
      otherwise. */
  function Send(s: AppState): (r: AppState)
    ensures r.(outbox := s.outbox) == s
    ensures r.outbox == s.outbox + (if s.outboxFree then [REQUEST] else [])
  {
    if s.outboxFree then s.(outbox := s.outbox + [REQUEST]) else s
  }

  /** "Location disabled": the response's count byte is 0. */
  function ShowLocationDisabled(s: AppState): AppState {
    s.(temperatureText := NOT_AVAILABLE, cityText := ENABLE_LOCATION)
  }

  /** A valid current-weather record on screen: the held bitmap is
      destroyed, one for the record's icon created, and both labels set. */
  function ShowCurrent(s: AppState, w: CurrentWeather): AppState {
    var released := if s.iconBitmap.Some? then s.bitmapLog + [Destroy(s.iconBitmap.value)] else s.bitmapLog;
    var b := Bitmap(WEATHER_ICONS[IconIndex(w.icon)], |released|);
    s.(current := w,
       iconBitmap := Some(b),
       bitmapLog := released + [Create(b)],
       temperatureText := TemperatureLabel(w.temperature, w.metricUnits),
       cityText := CString(w.city))
  }

  /** The current-weather branch, given the entry's bytes. A payload too
      short for its count byte or for the record it announces is ignored
      (see Findings in README.md); CopiedAsWritten models what the C code
      reads instead. */
  function HandleCurrent(s: AppState, payload: seq<Byte>): AppState {
    if |payload| == 0 then s
    else if payload[0] == 0 then ShowLocationDisabled(s)
    else match DecodeCurrent(payload[1..])
      case None => s
      case Some(w) =>
        if w.icon == FAILED_ICON then s.(current := w, cityText := REQUEST_FAILED)
        else ShowCurrent(s, w)
  }

  /** The forecast branch, given the entry's bytes and the clock; short
      payloads are ignored as in HandleCurrent. */
  function HandleForecast(s: AppState, payload: seq<Byte>, now: int): AppState {
    if |payload| == 0 then s
    else if payload[0] == 0 then ShowLocationDisabled(s)
    else match DecodeForecast(payload[1..])
      case None => s
      case Some(f) =>
        if f.icon[0] == FAILED_ICON then s.(forecast := f, cityText := REQUEST_FAILED)
        else s.(forecast := f, cityText := CString(f.city), forecastLog := s.forecastLog + ForecastDays(f, now))
  }

  /** received_message: the first of RECONNECT_KEY,
      CURRENT_WEATHER_RESPONSE_KEY and WEATHER_FORECAST_RESPONSE_KEY that
      the message holds decides what happens; any other message is
      ignored. */
  function Handle(s: AppState, msg: Dictionary, now: int): AppState {
    if RECONNECT_KEY in msg then Send(s)
    else if CURRENT_WEATHER_RESPONSE_KEY in msg then HandleCurrent(s, Data(msg[CURRENT_WEATHER_RESPONSE_KEY]))
    else if WEATHER_FORECAST_RESPONSE_KEY in msg then HandleForecast(s, Data(msg[WEATHER_FORECAST_RESPONSE_KEY]), now)
    else s
  }

  /** The current-weather branch never touches the forecast, the outbox
      or the forecast log, only appends to the bitmap log, and stores a
      record only when the entry announces and holds one. */
  lemma HandleCurrentEffect(s: AppState, payload: seq<Byte>)
    ensures var r := HandleCurrent(s, payload);
      && r.forecast == s.forecast && r.outboxFree == s.outboxFree
      && r.outbox == s.outbox && r.forecastLog == s.forecastLog
      && |s.bitmapLog| <= |r.bitmapLog| && r.bitmapLog[..|s.bitmapLog|] == s.bitmapLog
      && (r.current == s.current ||
          (|payload| > 0 && payload[0] != 0 && DecodeCurrent(payload[1..]) == Some(r.current)))
  {
    if |payload| > 0 && payload[0] != 0 && DecodeCurrent(payload[1..]).Some? {
      var w := DecodeCurrent(payload[1..]).value;
      if w.icon != FAILED_ICON {
        ShowCurrentEffect(s, w);
      }
    }
  }

  /** The forecast branch never touches the current record, the bitmap
      or the outbox, sets the temperature label to "N/A" or leaves it,
      appends at most ten days to the log, and stores a record only when
      the entry announces and holds one. */
  lemma HandleForecastEffect(s: AppState, payload: seq<Byte>, now: int)
    ensures var r := HandleForecast(s, payload, now);
      && r.current == s.current && (r.temperatureText == s.temperatureText || r.temperatureText == NOT_AVAILABLE)
      && r.iconBitmap == s.iconBitmap && r.bitmapLog == s.bitmapLog
      && r.outboxFree == s.outboxFree && r.outbox == s.outbox
      && |s.forecastLog| <= |r.forecastLog| <= |s.forecastLog| + FORECAST_SLOTS
      && r.forecastLog[..|s.forecastLog|] == s.forecastLog
      && (r.forecast == s.forecast ||
          (|payload| > 0 && payload[0] != 0 && DecodeForecast(payload[1..]) == Some(r.forecast)))
  {
  }

  /** Over any message: only a reconnect sends, and only through a free
      outbox; the bitmap log and the forecast log only grow. */
  lemma HandleEffect(s: AppState, msg: Dictionary, now: int)
    ensures var r := Handle(s, msg, now);
      && r.outboxFree == s.outboxFree
      && (r.outbox != s.outbox ==> RECONNECT_KEY in msg && s.outboxFree)
      && |s.bitmapLog| <= |r.bitmapLog| && r.bitmapLog[..|s.bitmapLog|] == s.bitmapLog
      && |s.forecastLog| <= |r.forecastLog| && r.forecastLog[..|s.forecastLog|] == s.forecastLog
  {
    if RECONNECT_KEY !in msg {
      if CURRENT_WEATHER_RESPONSE_KEY in msg {
        HandleCurrentEffect(s, Data(msg[CURRENT_WEATHER_RESPONSE_KEY]));
      } else if WEATHER_FORECAST_RESPONSE_KEY in msg {
        HandleForecastEffect(s, Data(msg[WEATHER_FORECAST_RESPONSE_KEY]), now);
      }
    }
  }

  /** Unrecognised messages change nothing. */
  lemma UnrecognisedIgnored(s: AppState, msg: Dictionary, now: int)
    requires RECONNECT_KEY !in msg && CURRENT_WEATHER_RESPONSE_KEY !in msg
    requires WEATHER_FORECAST_RESPONSE_KEY !in msg
    ensures Handle(s, msg, now) == s
  {
  }

  /** A reconnect message only re-sends the request, whatever response
      entries it also carries: records, labels and bitmap stay as they
      were, and the outbox gains exactly one REQUEST if it was free. */
  lemma ReconnectOnlyRequests(s: AppState, msg: Dictionary, now: int)
    requires RECONNECT_KEY in msg
    ensures Handle(s, msg, now).(outbox := s.outbox) == s
    ensures Handle(s, msg, now).outbox == s.outbox + (if s.outboxFree then [REQUEST] else [])
  {
  }

  /** A current-weather response is acted on before a forecast response:
      the forecast entry of the same message is never looked at. */
  lemma CurrentBeforeForecast(s: AppState, msg: Dictionary, now: int)
    requires RECONNECT_KEY !in msg && CURRENT_WEATHER_RESPONSE_KEY in msg
    ensures Handle(s, msg, now) == Handle(s, msg - {WEATHER_FORECAST_RESPONSE_KEY}, now)
  {
    var m := msg - {WEATHER_FORECAST_RESPONSE_KEY};
    assert CURRENT_WEATHER_RESPONSE_KEY in m && m[CURRENT_WEATHER_RESPONSE_KEY] == msg[CURRENT_WEATHER_RESPONSE_KEY];
  }

  /** The response entry of a message that the handler decodes, if any. */
  predicate ActsOn(msg: Dictionary, key: nat) {
    RECONNECT_KEY !in msg &&
    (key == CURRENT_WEATHER_RESPONSE_KEY || (key == WEATHER_FORECAST_RESPONSE_KEY && CURRENT_WEATHER_RESPONSE_KEY !in msg)) &&
    key in msg
  }

  /** Count byte 0 in either response means "location disabled", whatever
      bytes follow it: the labels read "N/A" and "Enable Location" and
      nothing else changes, the stored records included. */
  lemma LocationDisabled(s: AppState, msg: Dictionary, key: nat, now: int)
    requires ActsOn(msg, key)
    requires |Data(msg[key])| > 0 && Data(msg[key])[0] == 0
    ensures Handle(s, msg, now) == s.(temperatureText := NOT_AVAILABLE, cityText := ENABLE_LOCATION)
  {
  }

  /** A response entry made of a count byte and an encoded record. */
  lemma CurrentPayload(p: seq<Byte>, count: Byte, w: CurrentWeather, rest: seq<Byte>)
    requires p == [count] + EncodeCurrent(w) + rest
    ensures |p| > 0 && p[0] == count && DecodeCurrent(p[1..]) == Some(w)
  {
    assert p[1..] == EncodeCurrent(w) + rest;
    CurrentRoundTrip(w, rest);
  }

  lemma ForecastPayload(p: seq<Byte>, count: Byte, f: WeatherForecast, rest: seq<Byte>)
    requires p == [count] + EncodeForecast(f) + rest
    ensures |p| > 0 && p[0] == count && DecodeForecast(p[1..]) == Some(f)
  {
    assert p[1..] == EncodeForecast(f) + rest;
    ForecastRoundTrip(f, rest);
  }

  /** The current-weather entry of `msg` announces a record (count byte
      above 0) and holds one that decodes to `w`. */
  predicate CarriesCurrent(msg: Dictionary, w: CurrentWeather) {
    CURRENT_WEATHER_RESPONSE_KEY in msg &&
    var p := Data(msg[CURRENT_WEATHER_RESPONSE_KEY]);
    |p| > 0 && p[0] > 0 && DecodeCurrent(p[1..]) == Some(w)
  }

  /** The forecast entry of `msg` announces a record and holds one that
      decodes to `f`. */
  predicate CarriesForecast(msg: Dictionary, f: WeatherForecast) {
    WEATHER_FORECAST_RESPONSE_KEY in msg &&
    var p := Data(msg[WEATHER_FORECAST_RESPONSE_KEY]);
    |p| > 0 && p[0] > 0 && DecodeForecast(p[1..]) == Some(f)
  }

  /** A current-weather response whose record has the failure icon stores
      the record and shows "Request Failed"; the temperature label and the
      bitmap stay. */
  lemma CurrentRequestFailed(s: AppState, msg: Dictionary, w: CurrentWeather, now: int)
    requires RECONNECT_KEY !in msg && CarriesCurrent(msg, w)
    requires w.icon == FAILED_ICON
    ensures Handle(s, msg, now) == s.(current := w, cityText := REQUEST_FAILED)
  {
  }

  /** A current-weather response with a valid record stores it, shows its
      temperature as decimal, degree sign and unit letter and its city,
      and swaps the held bitmap for a new one made from the classifier's
      image; the forecast, outbox and log stay. */
  lemma CurrentShown(s: AppState, msg: Dictionary, w: CurrentWeather, now: int)
    requires RECONNECT_KEY !in msg && CarriesCurrent(msg, w)
    requires w.icon != FAILED_ICON
    ensures var t := Handle(s, msg, now);
      && t.current == w
      && t.temperatureText == Decimal(w.temperature) + DEGREE_SIGN + [UnitLetter(w.metricUnits)]
      && t.cityText == CString(w.city)
      && t.iconBitmap.Some? && t.iconBitmap.value.resource == WEATHER_ICONS[IconIndex(w.icon)]
      && t.bitmapLog == s.bitmapLog + (if s.iconBitmap.Some? then [Destroy(s.iconBitmap.value)] else [])
                                    + [Create(t.iconBitmap.value)]
      && t.forecast == s.forecast && t.outbox == s.outbox && t.outboxFree == s.outboxFree
      && t.forecastLog == s.forecastLog
  {
  }

  /** An entry made of a count byte above 0, the encoding of `w` and any
      trailing bytes carries `w`: the two lemmas above then apply. */
  lemma EncodedCurrentCarried(msg: Dictionary, count: Byte, w: CurrentWeather, rest: seq<Byte>)
    requires CURRENT_WEATHER_RESPONSE_KEY in msg && count > 0
    requires Data(msg[CURRENT_WEATHER_RESPONSE_KEY]) == [count] + EncodeCurrent(w) + rest
    ensures CarriesCurrent(msg, w)
  {
    CurrentPayload(Data(msg[CURRENT_WEATHER_RESPONSE_KEY]), count, w, rest);
  }

  /** A forecast response whose first slot holds the failure icon stores
      the record and shows "Request Failed"; no day is reported. */
  lemma ForecastRequestFailed(s: AppState, msg: Dictionary, f: WeatherForecast, now: int)
    requires ActsOn(msg, WEATHER_FORECAST_RESPONSE_KEY) && CarriesForecast(msg, f)
    requires f.icon[0] == FAILED_ICON
    ensures Handle(s, msg, now) == s.(forecast := f, cityText := REQUEST_FAILED)
  {
  }

  /** The forecast counterpart of EncodedCurrentCarried. */
  lemma EncodedForecastCarried(msg: Dictionary, count: Byte, f: WeatherForecast, rest: seq<Byte>)
    requires WEATHER_FORECAST_RESPONSE_KEY in msg && count > 0
    requires Data(msg[WEATHER_FORECAST_RESPONSE_KEY]) == [count] + EncodeForecast(f) + rest
    ensures CarriesForecast(msg, f)
  {
    ForecastPayload(Data(msg[WEATHER_FORECAST_RESPONSE_KEY]), count, f, rest);
  }

  /** A valid forecast response stores the record, shows its city and
      reports exactly the slots before the first failure icon, at most
      ten, day k stamped `now` + 86400·k; the temperature label, bitmap
      and current record stay. */
  lemma ForecastShown(s: AppState, msg: Dictionary, f: WeatherForecast, now: int)
    requires ActsOn(msg, WEATHER_FORECAST_RESPONSE_KEY) && CarriesForecast(msg, f)
    requires f.icon[0] != FAILED_ICON
    ensures var t := Handle(s, msg, now);
      var days := t.forecastLog[|s.forecastLog|..];
      && t == s.(forecast := f, cityText := CString(f.city), forecastLog := t.forecastLog)
      && |s.forecastLog| <= |t.forecastLog| && t.forecastLog[..|s.forecastLog|] == s.forecastLog
      && 1 <= |days| <= FORECAST_SLOTS
      && (|days| < FORECAST_SLOTS ==> f.icon[|days|] == FAILED_ICON)
      && forall k :: 0 <= k < |days| ==>
           days[k] == ForecastDay(now + SECONDS_PER_DAY * k, f.icon[k], f.temperatureMin[k], f.temperatureMax[k])
           && f.icon[k] != FAILED_ICON
  {
    var t := Handle(s, msg, now);
    assert t.forecastLog == s.forecastLog + ForecastDays(f, now);
    assert t.forecastLog[|s.forecastLog|..] == ForecastDays(f, now);
  }

  /** What showing a record changes: the record, both labels and the
      bitmap, which is made from the classifier's image and whose log only
      grows; the forecast, outbox and forecast log stay. */
  lemma ShowCurrentEffect(s: AppState, w: CurrentWeather)
    ensures var r := ShowCurrent(s, w);
      && r.current == w && r.iconBitmap.Some?
      && r.iconBitmap.value.resource == WEATHER_ICONS[IconIndex(w.icon)]
      && r.temperatureText == Decimal(w.temperature) + DEGREE_SIGN + [UnitLetter(w.metricUnits)]
      && r.cityText == CString(w.city)
      && r.forecast == s.forecast && r.outboxFree == s.outboxFree
      && r.outbox == s.outbox && r.forecastLog == s.forecastLog
      && |s.bitmapLog| < |r.bitmapLog| && r.bitmapLog[..|s.bitmapLog|] == s.bitmapLog
  {
  }

  /** Showing a record swaps the held bitmap without ever holding two. */
  lemma ShowCurrentKeepsOneBitmap(s: AppState, w: CurrentWeather)
    requires OneBitmap(s)
    ensures OneBitmap(ShowCurrent(s, w))
  {
    var released := if s.iconBitmap.Some? then s.bitmapLog + [Destroy(s.iconBitmap.value)] else s.bitmapLog;
    if s.iconBitmap.Some? {
      ReplayAppend(s.bitmapLog, Destroy(s.iconBitmap.value));
    }
    ReplayAppend(released, Create(Bitmap(WEATHER_ICONS[IconIndex(w.icon)], |released|)));
  }

  /** Every message keeps the bitmap discipline: at most one bitmap held,
      each destroyed before the next is created. */
  lemma HandleKeepsOneBitmap(s: AppState, msg: Dictionary, now: int)
    requires OneBitmap(s)
    ensures OneBitmap(Handle(s, msg, now))
  {
    if RECONNECT_KEY !in msg && CURRENT_WEATHER_RESPONSE_KEY in msg {
      var p := Data(msg[CURRENT_WEATHER_RESPONSE_KEY]);
      if |p| > 0 && p[0] != 0 && DecodeCurrent(p[1..]).Some? {
        ShowCurrentKeepsOneBitmap(s, DecodeCurrent(p[1..]).value);
      }
    }
  }

  /** The bytes the C code copies into a record of `size` bytes for a
      response entry whose bytes are `payload`: it reads `data[0]` and
      then `size` bytes from `data + 1` without comparing either with the
      entry's length, so `beyond`, the memory that follows the entry,
      supplies whatever the payload lacks. None stands for the count-0
      path, which copies nothing. */
  function CopiedAsWritten(payload: seq<Byte>, beyond: seq<Byte>, size: nat): (r: Option<seq<Byte>>)
    requires |payload| + |beyond| >= 1 + size
    ensures r.Some? <==> (payload + beyond)[0] != 0
    ensures r.Some? ==> |r.value| == size && r.value == (payload + beyond)[1..1 + size]
  {
    var memory := payload + beyond;
    if memory[0] == 0 then None else Some(memory[1..1 + size])
  }

  /** For an entry long enough for its record, the copy as written reads
      nothing beyond the entry, and the bytes it copies are the ones the
      corrected handler decodes: the correction changes nothing for a
      well-formed entry. */
  lemma CopiedWithinEntry(payload: seq<Byte>, beyond: seq<Byte>, other: seq<Byte>, size: nat)
    requires |payload| >= 1 + size
    ensures CopiedAsWritten(payload, beyond, size) == CopiedAsWritten(payload, other, size)
    ensures payload[0] != 0 ==> CopiedAsWritten(payload, beyond, size) == Some(payload[1..1 + size])
    ensures payload[0] == 0 ==> CopiedAsWritten(payload, beyond, size).None?
  {
    assert (payload + beyond)[1..1 + size] == payload[1..1 + size];
    assert (payload + other)[1..1 + size] == payload[1..1 + size];
  }

  /** The one-byte payload [1] announces a record and carries none: what
      is copied then depends on memory outside the message. */
  lemma ShortPayloadReadsPastEntry(size: nat)
    requires size > 0
    ensures CopiedAsWritten([1], seq(size, _ => 0), size) != CopiedAsWritten([1], seq(size, _ => 1), size)
  {
    var zeros: seq<Byte> := seq(size, _ => 0);
    var ones: seq<Byte> := seq(size, _ => 1);
    assert CopiedAsWritten([1], zeros, size).value[0] == zeros[0];
    assert CopiedAsWritten([1], ones, size).value[0] == ones[0];
  }

  lemma DecodeCurrentPrefix(a: seq<Byte>)
    requires |a| >= CURRENT_WEATHER_SIZE
    ensures DecodeCurrent(a) == DecodeCurrent(a[..CURRENT_WEATHER_SIZE])
  {
    var b := a[..CURRENT_WEATHER_SIZE];
    assert a[0..2] == b[0..2] && a[2..4] == b[2..4] && a[4..25] == b[4..25];
    assert a[26..34] == b[26..34] && a[34..42] == b[34..42] && a[42..43] == b[42..43];
    assert a[43..45] == b[43..45] && a[45..47] == b[45..47] && a[47..51] == b[47..51];
  }

  lemma DecodeForecastPrefix(a: seq<Byte>)
    requires |a| >= WEATHER_FORECAST_SIZE
    ensures DecodeForecast(a) == DecodeForecast(a[..WEATHER_FORECAST_SIZE])
  {
    var b := a[..WEATHER_FORECAST_SIZE];
    assert a[0..20] == b[0..20] && a[20..40] == b[20..40] && a[40..60] == b[40..60];
    assert a[60..81] == b[60..81];
  }

  /** With the length checks of HandleCurrent and HandleForecast, a stored
      record is either left as it was or decoded from bytes that lie
      inside the entry the handler acted on. */
  lemma RecordComesFromEntry(s: AppState, msg: Dictionary, now: int)
    requires RECONNECT_KEY !in msg
    ensures var t := Handle(s, msg, now);
      t.current == s.current ||
      (CURRENT_WEATHER_RESPONSE_KEY in msg &&
       var p := Data(msg[CURRENT_WEATHER_RESPONSE_KEY]);
       |p| >= 1 + CURRENT_WEATHER_SIZE && p[0] != 0 &&
       DecodeCurrent(p[1..1 + CURRENT_WEATHER_SIZE]) == Some(t.current))
    ensures var t := Handle(s, msg, now);
      t.forecast == s.forecast ||
      (ActsOn(msg, WEATHER_FORECAST_RESPONSE_KEY) &&
       var p := Data(msg[WEATHER_FORECAST_RESPONSE_KEY]);
       |p| >= 1 + WEATHER_FORECAST_SIZE && p[0] != 0 &&
       DecodeForecast(p[1..1 + WEATHER_FORECAST_SIZE]) == Some(t.forecast))
  {
    if CURRENT_WEATHER_RESPONSE_KEY in msg {
      CurrentComesFromEntry(s, Data(msg[CURRENT_WEATHER_RESPONSE_KEY]));
    } else if WEATHER_FORECAST_RESPONSE_KEY in msg {
      ForecastComesFromEntry(s, Data(msg[WEATHER_FORECAST_RESPONSE_KEY]), now);
    }
  }

  lemma CurrentComesFromEntry(s: AppState, p: seq<Byte>)
    ensures var t := HandleCurrent(s, p);
      t.forecast == s.forecast &&
      (t.current == s.current ||
       (|p| >= 1 + CURRENT_WEATHER_SIZE && p[0] != 0 &&
        DecodeCurrent(p[1..1 + CURRENT_WEATHER_SIZE]) == Some(t.current)))
  {
    if |p| >= 1 + CURRENT_WEATHER_SIZE {
      DecodeCurrentPrefix(p[1..]);
      assert p[1..][..CURRENT_WEATHER_SIZE] == p[1..1 + CURRENT_WEATHER_SIZE];
    }
  }

  lemma ForecastComesFromEntry(s: AppState, p: seq<Byte>, now: int)
    ensures var t := HandleForecast(s, p, now);
      t.current == s.current &&
      (t.forecast == s.forecast ||
       (|p| >= 1 + WEATHER_FORECAST_SIZE && p[0] != 0 &&
        DecodeForecast(p[1..1 + WEATHER_FORECAST_SIZE]) == Some(t.forecast)))
  {
    if |p| >= 1 + WEATHER_FORECAST_SIZE {
      DecodeForecastPrefix(p[1..]);
      assert p[1..][..WEATHER_FORECAST_SIZE] == p[1..1 + WEATHER_FORECAST_SIZE];
    }
  }

  /** A response entry too short for its count byte, or announcing a
      record it does not hold, changes nothing. */
  lemma ShortEntryIgnored(s: AppState, msg: Dictionary, key: nat, now: int)
    requires ActsOn(msg, key)
    requires var p := Data(msg[key]);
      |p| == 0 ||
      (p[0] != 0 && |p| < 1 + if key == CURRENT_WEATHER_RESPONSE_KEY then CURRENT_WEATHER_SIZE else WEATHER_FORECAST_SIZE)
    ensures Handle(s, msg, now) == s
  {
  }

  /** Where the app is in its window's life: the message callback is
      registered between load and unload only. */
  datatype Phase = Created | Loaded | Unloaded

  class WeatherApp {
    var current: CurrentWeather
    var forecast: WeatherForecast
    var temperatureText: Text
    var cityText: Text
    var iconBitmap: Option<Bitmap>
    var bitmapLog: seq<BitmapEvent>
    /** Whether the transport can open an outbox right now. */
    var outboxFree: bool
    var outbox: seq<Dictionary>
    /** The forecast days reported so far, in order. */
    var forecastLog: seq<ForecastDay>
    var phase: Phase

    ghost function State(): AppState
      reads this
    {
      AppState(current, forecast, temperatureText, cityText, iconBitmap, bitmapLog,
               outboxFree, outbox, forecastLog)
    }

    /** While loaded the held bitmap is the only live one; after unload
        none is live (the stale handle is kept, as in the C code). */
    ghost predicate Valid()
      reads this
    {
      match phase
      case Created => bitmapLog == [] && iconBitmap.None?
      case Loaded => Replay(bitmapLog) == Some(iconBitmap)
      case Unloaded => Replay(bitmapLog) == Some(None)
    }

    constructor (outboxFree: bool)
      ensures Valid() && phase == Created
      ensures State() == Initial(outboxFree)
    {
      current := ZERO_CURRENT;
      forecast := ZERO_FORECAST;
      temperatureText := [];
      cityText := [];
      iconBitmap := None;
      bitmapLog := [];
      this.outboxFree := outboxFree;
      outbox := [];
      forecastLog := [];
      phase := Created;
    }

    /** The transport's outbox becoming free or busy. */
    method SetOutboxFree(free: bool)
      modifies this`outboxFree
      ensures outboxFree == free
    {
      outboxFree := free;
    }

    /** send_cmd: opens the outbox and writes REQUEST_CURRENT_WEATHER_KEY
        = 1; when no outbox is free it does nothing at all. */
    method SendCmd()
      modifies this`outbox
      ensures outbox == old(outbox) + (if outboxFree then [REQUEST] else [])
      ensures State() == Send(old(State()))
    {
      if !outboxFree {
        return;
      }
      outbox := outbox + [REQUEST];
    }

    /** window_load: registers the message callback and sends the first
        request. */
    method WindowLoad()
      requires Valid() && phase == Created
      modifies this
      ensures Valid() && phase == Loaded
      ensures State() == Send(old(State()))
    {
      phase := Loaded;
      SendCmd();
    }

    /** window_unload: deregisters the callback and destroys the held
        bitmap, if any. */
    method WindowUnload()
      requires Valid() && phase == Loaded
      modifies this
      ensures Valid() && phase == Unloaded
      ensures State() == old(State()).(bitmapLog :=
        old(bitmapLog) + if old(iconBitmap).Some? then [Destroy(old(iconBitmap).value)] else [])
    {
      phase := Unloaded;
      if iconBitmap.Some? {
        ReplayAppend(bitmapLog, Destroy(iconBitmap.value));
        bitmapLog := bitmapLog + [Destroy(iconBitmap.value)];
      }
    }

    /** received_message, with `now` for `time(NULL)`: the first of the
        three keys present picks the branch. */
    method ReceivedMessage(msg: Dictionary, now: Int64)
      requires Valid() && phase == Loaded
      modifies this
      ensures Valid() && phase == Loaded
      ensures State() == Handle(old(State()), msg, now)
    {
      if RECONNECT_KEY in msg {
        SendCmd();
      } else if CURRENT_WEATHER_RESPONSE_KEY in msg {
        ReceiveCurrent(Data(msg[CURRENT_WEATHER_RESPONSE_KEY]));
      } else if WEATHER_FORECAST_RESPONSE_KEY in msg {
        ReceiveForecast(Data(msg[WEATHER_FORECAST_RESPONSE_KEY]), now);
      }
    }

    /** The current-weather branch of received_message. */
    method ReceiveCurrent(data: seq<Byte>)
      requires Valid() && phase == Loaded
      modifies this
      ensures Valid() && phase == Loaded
      ensures State() == HandleCurrent(old(State()), data)
    {
      ghost var before := State();
      if |data| == 0 {
        return;
      }
      var count := data[0];
      if count > 0 {
        var record := DecodeCurrent(data[1..]);
        if record.None? {
          return;
        }
        current := record.value;
      } else {
        temperatureText := NOT_AVAILABLE;
        cityText := ENABLE_LOCATION;
        return;
      }
      if current.icon == FAILED_ICON {
        cityText := REQUEST_FAILED;
        return;
      }
      ShowCurrentWeather();
    }

    /** The success path of the current-weather branch: the icon, the
        temperature label and the city label of the stored record. */
    method ShowCurrentWeather()
      requires Valid() && phase == Loaded
      modifies this
      ensures Valid() && phase == Loaded
      ensures State() == ShowCurrent(old(State()), old(current))
    {
      ghost var t := ShowCurrent(State(), current);
      ReplaceIcon(WEATHER_ICONS[IconIndex(current.icon)]);
      assert iconBitmap == t.iconBitmap && bitmapLog == t.bitmapLog;
      temperatureText := TemperatureLabel(current.temperature, current.metricUnits);
      cityText := CString(current.city);
    }

    /** Destroys the held bitmap, if any, then creates one from `resource`
        and holds it. */
    method ReplaceIcon(resource: IconResource)
      requires Valid() && phase == Loaded
      modifies this`iconBitmap, this`bitmapLog
      ensures Valid()
      ensures var released := old(bitmapLog) + if old(iconBitmap).Some? then [Destroy(old(iconBitmap).value)] else [];
        iconBitmap == Some(Bitmap(resource, |released|)) && bitmapLog == released + [Create(iconBitmap.value)]
    {
      if iconBitmap.Some? {
        ReplayAppend(bitmapLog, Destroy(iconBitmap.value));
        bitmapLog := bitmapLog + [Destroy(iconBitmap.value)];
      }
      var created := Bitmap(resource, |bitmapLog|);
      ReplayAppend(bitmapLog, Create(created));
      bitmapLog := bitmapLog + [Create(created)];
      iconBitmap := Some(created);
    }

    /** The forecast branch of received_message. */
    method ReceiveForecast(data: seq<Byte>, now: Int64)
      requires Valid() && phase == Loaded
      modifies this
      ensures Valid() && phase == Loaded
      ensures State() == HandleForecast(old(State()), data, now)
    {
      if |data| == 0 {
        return;
      }
      var count := data[0];
      if count > 0 {
        var record := DecodeForecast(data[1..]);
        if record.None? {
          return;
        }
        forecast := record.value;
      } else {
        temperatureText := NOT_AVAILABLE;
        cityText := ENABLE_LOCATION;
        return;
      }
      if forecast.icon[0] == FAILED_ICON {
        cityText := REQUEST_FAILED;
        return;
      }
      ShowForecast(now);
    }

    /** The success path of the forecast branch: the city label and the
        days of the forecast loop. */
    method ShowForecast(now: Int64)
      modifies this`cityText, this`forecastLog
      ensures cityText == CString(forecast.city)
      ensures forecastLog == old(forecastLog) + ForecastDays(forecast, now)
    {
      cityText := CString(forecast.city);
      var days := ScanForecast(forecast, now);
      forecastLog := forecastLog + days;
    }
  }

  /** The forecast loop of received_message: walks the ten slots from the
      first, stops at the first failure icon, and reports each slot before
      it with `rawtime`, which starts at `now` and advances one day per
      slot. */
  method ScanForecast(f: WeatherForecast, now: int) returns (days: seq<ForecastDay>)
    ensures |days| <= FORECAST_SLOTS
    ensures |days| < FORECAST_SLOTS ==> f.icon[|days|] == FAILED_ICON
    ensures forall k :: 0 <= k < |days| ==> f.icon[k] != FAILED_ICON
    ensures forall k :: 0 <= k < |days| ==>
      days[k] == ForecastDay(now + SECONDS_PER_DAY * k, f.icon[k], f.temperatureMin[k], f.temperatureMax[k])
    ensures days == ForecastDays(f, now)
  {
    days := [];
    var rawtime := now;
    var idx := 0;
    while idx < |f.icon|
      invariant 0 <= idx <= |f.icon| && |days| == idx
      invariant rawtime == now + SECONDS_PER_DAY * idx
      invariant forall k :: 0 <= k < idx ==> f.icon[k] != FAILED_ICON
      invariant forall k :: 0 <= k < idx ==>
        days[k] == ForecastDay(now + SECONDS_PER_DAY * k, f.icon[k], f.temperatureMin[k], f.temperatureMax[k])
    {
      var icon := f.icon[idx];
      if icon == FAILED_ICON {
        break;
      }
      days := days + [ForecastDay(rawtime, icon, f.temperatureMin[idx], f.temperatureMax[idx])];
      rawtime := rawtime + SECONDS_PER_DAY;
      idx := idx + 1;
    }
    assert |days| == ValidSlots(f.icon);
  }
}
