/** The dashboard's snapshot merger (src/hooks/useSmartAgriData.ts): the
    latest stored IoT reading is trusted only if it carries a meaningful
    measurement; temperature, humidity and NDVI that are still missing are
    then requested from the weather and satellite providers, whose replies
    fill only the fields they are responsible for. */
module SmartAgri {
  import opened Common

  /** The merged farm snapshot the dashboard works on (every field optional). */
  datatype SmartAgriData = SmartAgriData(
    n: Option<real>,
    p: Option<real>,
    k: Option<real>,
    ph: Option<real>,
    moisture: Option<real>,
    temperature: Option<real>,
    humidity: Option<real>,
    ndvi: Option<real>,
    latitude: Option<real>,
    longitude: Option<real>,
    timestamp: Option<string>)

  /** A row of the `iot_readings` table; `null` columns are `None`. */
  datatype IotRow = IotRow(
    nValue: Option<real>,
    pValue: Option<real>,
    kValue: Option<real>,
    soilPh: Option<real>,
    soilMoisture: Option<real>,
    temperature: Option<real>,
    humidity: Option<real>,
    ndvi: Option<real>,
    latitude: Option<real>,
    longitude: Option<real>,
    createdAt: string)

  /** What the store query returns: the newest row, if any, and an error code. */
  datatype StoreReply = StoreReply(data: Option<IotRow>, error: Option<string>)

  /** The settled outcome of `supabase.functions.invoke(...).then(...)`: either the
      promise rejected, or it resolved with optional data and an optional error. */
  datatype Invocation<T> = Rejected(reason: string) | Resolved(data: Option<T>, error: Option<string>)

  /** The fields of the weather provider's reply that the merger reads. */
  datatype WeatherReply = WeatherReply(success: bool, temperature: Option<real>, humidity: Option<real>)

  /** The fields of the NDVI provider's reply that the merger reads. */
  datatype NdviReply = NdviReply(success: bool, ndvi: Option<real>)

  datatype Coords = Coords(latitude: real, longitude: real)
  datatype Provider = WeatherData | SatelliteNdvi
  /** A provider request pushed onto the `promises` array, with the body it was sent. */
  datatype ProviderCall = ProviderCall(provider: Provider, body: Coords)

  /** Lines written with `console.error`. */
  datatype LogEntry = StoreFailed(code: string) | WeatherFailed(reason: string) | NdviFailed(reason: string)

  const DefaultLatitude: real := 17.4065
  const DefaultLongitude: real := 78.4772

  /** The code the store returns when the table is empty; it is not logged. */
  const NoRowsCode: string := "PGRST116"

  predicate Positive(v: Option<real>) {
    v.Some? && v.value > 0.0
  }

  /** The validity gate: a row is trusted only if nitrogen, phosphorus or
      temperature is present and strictly positive. */
  function HasValidData(row: Option<IotRow>): (valid: bool)
    ensures valid <==> row.Some? && exists v :: v in GateFields(row.value) && v.Some? && v.value > 0.0
  {
    row.Some? && (Positive(row.value.nValue) || Positive(row.value.pValue) || Positive(row.value.temperature))
  }

  /** The three measurements the validity gate looks at. */
  function GateFields(row: IotRow): seq<Option<real>> {
    [row.nValue, row.pValue, row.temperature]
  }

  /** `valid && stored ? stored : fallback`: a zero coordinate is falsy and falls back. */
  function ResolveCoordinate(valid: bool, stored: Option<real>, fallback: real): (c: real)
    ensures valid && stored.Some? && stored.value != 0.0 ==> c == stored.value
    ensures !(valid && stored.Some? && stored.value != 0.0) ==> c == fallback
  {
    if valid && stored.Some? && stored.value != 0.0 then stored.value else fallback
  }

  /** The snapshot before any provider is consulted (the `mergedData` literal). */
  function InitialSnapshot(row: Option<IotRow>): (s: SmartAgriData)
    ensures s.latitude.Some? && s.longitude.Some?
    ensures s.timestamp.Some? <==> HasValidData(row)
    ensures !HasValidData(row) ==> s.n.None? && s.p.None? && s.k.None? && s.ph.None? && s.moisture.None?
    ensures !HasValidData(row) ==> s.temperature.None? && s.humidity.None? && s.ndvi.None?
  {
    var valid := HasValidData(row);
    SmartAgriData(
      n := if valid then row.value.nValue else None,
      p := if valid then row.value.pValue else None,
      k := if valid then row.value.kValue else None,
      ph := if valid then row.value.soilPh else None,
      moisture := if valid then row.value.soilMoisture else None,
      temperature := if valid then row.value.temperature else None,
      humidity := if valid then row.value.humidity else None,
      ndvi := if valid then row.value.ndvi else None,
      latitude := Some(ResolveCoordinate(valid, if row.Some? then row.value.latitude else None, DefaultLatitude)),
      longitude := Some(ResolveCoordinate(valid, if row.Some? then row.value.longitude else None, DefaultLongitude)),
      timestamp := if valid then Some(row.value.createdAt) else None)
  }

  /** `!error && data?.success` */
  predicate Succeeded<T>(reply: Invocation<T>, success: T -> bool) {
    reply.Resolved? && reply.error.None? && reply.data.Some? && success(reply.data.value)
  }

  predicate NeedsWeather(s: SmartAgriData) {
    s.temperature.None? || s.humidity.None?
  }

  predicate NeedsNdvi(s: SmartAgriData) {
    s.ndvi.None?
  }

  /** The weather callback: on success, fill temperature and humidity where still null. */
  function WithWeather(s: SmartAgriData, reply: Invocation<WeatherReply>): (r: SmartAgriData)
    ensures r == s.(temperature := r.temperature, humidity := r.humidity)
    ensures s.temperature.Some? ==> r.temperature == s.temperature
    ensures s.humidity.Some? ==> r.humidity == s.humidity
    ensures !Succeeded(reply, (w: WeatherReply) => w.success) ==> r == s
  {
    if Succeeded(reply, (w: WeatherReply) => w.success) then
      s.(temperature := if s.temperature.None? then reply.data.value.temperature else s.temperature,
         humidity := if s.humidity.None? then reply.data.value.humidity else s.humidity)
    else s
  }

  /** The NDVI callback: on success, set the NDVI field. */
  function WithNdvi(s: SmartAgriData, reply: Invocation<NdviReply>): (r: SmartAgriData)
    ensures r == s.(ndvi := r.ndvi)
    ensures Succeeded(reply, (n: NdviReply) => n.success) ==> r.ndvi == reply.data.value.ndvi
    ensures !Succeeded(reply, (n: NdviReply) => n.success) ==> r == s
  {
    if Succeeded(reply, (r: NdviReply) => r.success) then s.(ndvi := reply.data.value.ndvi) else s
  }

  /** The requests the merger issues for a snapshot, in the order they are pushed. */
  function ProviderCalls(s: SmartAgriData): (calls: seq<ProviderCall>)
    requires s.latitude.Some? && s.longitude.Some?
    ensures forall c :: c in calls <==>
      || (c == ProviderCall(WeatherData, Coords(s.latitude.value, s.longitude.value)) && NeedsWeather(s))
      || (c == ProviderCall(SatelliteNdvi, Coords(s.latitude.value, s.longitude.value)) && NeedsNdvi(s))
    ensures |calls| <= 2 && (|calls| == 2 ==> calls[0].provider == WeatherData)
  {
    var coords := Coords(s.latitude.value, s.longitude.value);
    (if NeedsWeather(s) then [ProviderCall(WeatherData, coords)] else [])
      + (if NeedsNdvi(s) then [ProviderCall(SatelliteNdvi, coords)] else [])
  }

  /** The snapshot the query returns: the initial snapshot, then each callback
      that was registered (both are decided before either callback runs). */
  function Merged(row: Option<IotRow>, weather: Invocation<WeatherReply>, ndvi: Invocation<NdviReply>): (s: SmartAgriData)
    ensures var s0 := InitialSnapshot(row);
      s == s0.(temperature := s.temperature, humidity := s.humidity, ndvi := s.ndvi)
    ensures !NeedsWeather(InitialSnapshot(row)) && !NeedsNdvi(InitialSnapshot(row)) ==> s == InitialSnapshot(row)
  {
    var s0 := InitialSnapshot(row);
    var s1 := if NeedsWeather(s0) then WithWeather(s0, weather) else s0;
    if NeedsNdvi(s0) then WithNdvi(s1, ndvi) else s1
  }

  /** The `mergedData` record that the provider callbacks update in place. */
  class MergedData {
    var n: Option<real>
    var p: Option<real>
    var k: Option<real>
    var ph: Option<real>
    var moisture: Option<real>
    var temperature: Option<real>
    var humidity: Option<real>
    var ndvi: Option<real>
    var latitude: Option<real>
    var longitude: Option<real>
    var timestamp: Option<string>

    function Value(): SmartAgriData
      reads this
    {
      SmartAgriData(n, p, k, ph, moisture, temperature, humidity, ndvi, latitude, longitude, timestamp)
    }

    /** Builds the record from the stored row, applying the validity gate. */
    constructor (iotData: Option<IotRow>)
      ensures Value() == InitialSnapshot(iotData)
    {
      var valid := HasValidData(iotData);
      if valid {
        var row := iotData.value;
        n, p, k, ph, moisture := row.nValue, row.pValue, row.kValue, row.soilPh, row.soilMoisture;
        temperature, humidity, ndvi := row.temperature, row.humidity, row.ndvi;
        timestamp := Some(row.createdAt);
      } else {
        n, p, k, ph, moisture := None, None, None, None, None;
        temperature, humidity, ndvi := None, None, None;
        timestamp := None;
      }
      var storedLat := if iotData.Some? then iotData.value.latitude else None;
      var storedLon := if iotData.Some? then iotData.value.longitude else None;
      latitude := Some(if valid && storedLat.Some? && storedLat.value != 0.0 then storedLat.value else DefaultLatitude);
      longitude := Some(if valid && storedLon.Some? && storedLon.value != 0.0 then storedLon.value else DefaultLongitude);
    }

    /** The weather callback (lines 75-80). */
    method ApplyWeather(reply: Invocation<WeatherReply>)
      modifies this
      ensures Value() == WithWeather(old(Value()), reply)
    {
      if reply.Resolved? && reply.error.None? && reply.data.Some? && reply.data.value.success {
        if temperature == None {
          temperature := reply.data.value.temperature;
        }
        if humidity == None {
          humidity := reply.data.value.humidity;
        }
      }
    }

    /** The NDVI callback (lines 92-96). */
    method ApplyNdvi(reply: Invocation<NdviReply>)
      modifies this
      ensures Value() == WithNdvi(old(Value()), reply)
    {
      if reply.Resolved? && reply.error.None? && reply.data.Some? && reply.data.value.success {
        ndvi := reply.data.value.ndvi;
      }
    }
  }

  /** The query function: read the store, gate the row, issue the provider
      requests still needed, wait for both and return the merged record.
      The outcome of each provider is a parameter; it is only used when that
      provider is called. Nothing is ever thrown. */
  method FetchSmartAgriData(store: StoreReply, weather: Invocation<WeatherReply>, ndvi: Invocation<NdviReply>)
    returns (result: SmartAgriData, calls: seq<ProviderCall>, log: seq<LogEntry>)
    ensures result == Merged(store.data, weather, ndvi)
    ensures calls == ProviderCalls(InitialSnapshot(store.data))
    ensures forall e :: e in log <==>
      || (e.StoreFailed? && store.error == Some(e.code) && e.code != NoRowsCode)
      || (e.WeatherFailed? && weather == Rejected(e.reason) && NeedsWeather(InitialSnapshot(store.data)))
      || (e.NdviFailed? && ndvi == Rejected(e.reason) && NeedsNdvi(InitialSnapshot(store.data)))
  {
    log := [];
    if store.error.Some? && store.error.value != NoRowsCode {
      log := log + [StoreFailed(store.error.value)];
    }
    var merged := new MergedData(store.data);
    var coords := Coords(merged.latitude.GetOr(DefaultLatitude), merged.longitude.GetOr(DefaultLongitude));

    calls := [];
    var askWeather := merged.temperature == None || merged.humidity == None;
    if askWeather {
      calls := calls + [ProviderCall(WeatherData, coords)];
    }
    var askNdvi := merged.ndvi == None;
    if askNdvi {
      calls := calls + [ProviderCall(SatelliteNdvi, coords)];
    }

    // Promise.all: the two callbacks write disjoint fields (see CallbacksCommute).
    if askWeather {
      merged.ApplyWeather(weather);
      if weather.Rejected? {
        log := log + [WeatherFailed(weather.reason)];
      }
    }
    if askNdvi {
      merged.ApplyNdvi(ndvi);
      if ndvi.Rejected? {
        log := log + [NdviFailed(ndvi.reason)];
      }
    }
    result := merged.Value();
  }

  // ---------------------------------------------------------------------------
  // Properties of the merge

  /** Only nitrogen, phosphorus and temperature take part in the validity gate. */
  lemma GateReadsOnlyNPTemperature(r1: IotRow, r2: IotRow)
    requires r1.nValue == r2.nValue && r1.pValue == r2.pValue && r1.temperature == r2.temperature
    ensures HasValidData(Some(r1)) == HasValidData(Some(r2))
  {
  }

  /** A rejected row contributes nothing: all measurements start absent, the
      timestamp is undefined and the location is the default point. */
  lemma InvalidRowDiscarded(row: Option<IotRow>)
    requires !HasValidData(row)
    ensures InitialSnapshot(row) ==
      SmartAgriData(None, None, None, None, None, None, None, None,
                    Some(DefaultLatitude), Some(DefaultLongitude), None)
  {
  }

  /** A valid row is copied verbatim, nulls and zeros included. */
  lemma ValidRowCopied(row: IotRow)
    requires HasValidData(Some(row))
    ensures var s := InitialSnapshot(Some(row));
      && s.n == row.nValue && s.p == row.pValue && s.k == row.kValue
      && s.ph == row.soilPh && s.moisture == row.soilMoisture
      && s.temperature == row.temperature && s.humidity == row.humidity
      && s.ndvi == row.ndvi && s.timestamp == Some(row.createdAt)
  {
  }

  /** Latitude and longitude are never null; a stored coordinate survives only
      if the row is valid and the coordinate is non-zero. */
  lemma CoordinatesResolved(row: Option<IotRow>, weather: Invocation<WeatherReply>, ndvi: Invocation<NdviReply>)
    ensures var s := Merged(row, weather, ndvi);
      && s.latitude.Some? && s.longitude.Some?
      && (s.latitude.value != DefaultLatitude ==>
            HasValidData(row) && s.latitude == row.value.latitude)
      && (s.longitude.value != DefaultLongitude ==>
            HasValidData(row) && s.longitude == row.value.longitude)
  {
  }

  /** The provider phase changes only temperature, humidity and NDVI. */
  lemma ProviderPhasePreserves(row: Option<IotRow>, weather: Invocation<WeatherReply>, ndvi: Invocation<NdviReply>)
    ensures var s0, s := InitialSnapshot(row), Merged(row, weather, ndvi);
      s == s0.(temperature := s.temperature, humidity := s.humidity, ndvi := s.ndvi)
  {
  }

  /** A stored temperature, humidity or NDVI is never overwritten by a provider. */
  lemma StoredValuesWin(row: Option<IotRow>, weather: Invocation<WeatherReply>, ndvi: Invocation<NdviReply>)
    ensures var s0, s := InitialSnapshot(row), Merged(row, weather, ndvi);
      && (s0.temperature.Some? ==> s.temperature == s0.temperature)
      && (s0.humidity.Some? ==> s.humidity == s0.humidity)
      && (s0.ndvi.Some? ==> s.ndvi == s0.ndvi)
  {
  }

  /** A provider that errs, reports no success or rejects changes nothing. */
  lemma FailedProvidersChangeNothing(row: Option<IotRow>, weather: Invocation<WeatherReply>, ndvi: Invocation<NdviReply>)
    requires !Succeeded(weather, (w: WeatherReply) => w.success)
    requires !Succeeded(ndvi, (r: NdviReply) => r.success)
    ensures Merged(row, weather, ndvi) == InitialSnapshot(row)
  {
  }

  /** A successful weather reply fills exactly the fields that were still null. */
  lemma WeatherFillsMissing(row: Option<IotRow>, weather: Invocation<WeatherReply>, ndvi: Invocation<NdviReply>)
    requires Succeeded(weather, (w: WeatherReply) => w.success)
    ensures var s0, s := InitialSnapshot(row), Merged(row, weather, ndvi);
      && (s0.temperature.None? ==> s.temperature == weather.data.value.temperature)
      && (s0.humidity.None? ==> s.humidity == weather.data.value.humidity)
  {
  }

  /** A successful NDVI reply is used when, and only when, the row had no NDVI. */
  lemma NdviFillsMissing(row: Option<IotRow>, weather: Invocation<WeatherReply>, ndvi: Invocation<NdviReply>)
    requires Succeeded(ndvi, (r: NdviReply) => r.success)
    ensures var s0, s := InitialSnapshot(row), Merged(row, weather, ndvi);
      s.ndvi == if s0.ndvi.None? then ndvi.data.value.ndvi else s0.ndvi
  {
  }

  /** The callbacks write disjoint fields, so the order in which the two
      promises settle does not matter. */
  lemma CallbacksCommute(s: SmartAgriData, weather: Invocation<WeatherReply>, ndvi: Invocation<NdviReply>)
    ensures WithNdvi(WithWeather(s, weather), ndvi) == WithWeather(WithNdvi(s, ndvi), weather)
  {
  }
}
