/** The IoT upload endpoint (supabase/functions/iot-upload/index.ts): it
    builds one `iot_readings` row out of the request body, taking each of ten
    known fields only when it is provided, inserts the row and answers with
    the inserted data (status 200) or the error (status 400). */
module IotUpload {
  import opened Common

  /** The ten columns of `iot_readings` the body may set. */
  const NValue: string := "n_value"
  const PValue: string := "p_value"
  const KValue: string := "k_value"
  const SoilPh: string := "soil_ph"
  const SoilMoisture: string := "soil_moisture"
  const Temperature: string := "temperature"
  const Humidity: string := "humidity"
  const Latitude: string := "latitude"
  const Longitude: string := "longitude"
  const Ndvi: string := "ndvi"

  /** The columns in the order the handler checks them (lines 25-34). */
  const ReadingKeys: seq<string> :=
    [NValue, PValue, KValue, SoilPh, SoilMoisture, Temperature, Humidity, Latitude, Longitude, Ndvi]

  /** `v !== undefined && v !== null`. */
  predicate Provided(v: JsValue) {
    v != Undefined && v != Null
  }

  /** One conditional assignment: a provided field sets its column to its
      `parseFloat`, any other leaves the row as it was. */
  function Step(row: map<string, JsNum>, data: map<string, JsValue>, parseFloat: JsValue -> JsNum, key: string): map<string, JsNum> {
    if Provided(Field(data, key)) then row[key := parseFloat(Field(data, key))] else row
  }

  /** The row after the fields of `keys` have been considered in order. */
  function ReadingFrom(data: map<string, JsValue>, parseFloat: JsValue -> JsNum, keys: seq<string>): (r: map<string, JsNum>)
    ensures forall k :: k in r ==> k in keys && Provided(Field(data, k)) && r[k] == parseFloat(Field(data, k))
  {
    if keys == [] then map[]
    else Step(ReadingFrom(data, parseFloat, keys[..|keys| - 1]), data, parseFloat, keys[|keys| - 1])
  }

  lemma ReadingFromSnoc(data: map<string, JsValue>, parseFloat: JsValue -> JsNum, keys: seq<string>, key: string)
    ensures ReadingFrom(data, parseFloat, keys + [key]) == Step(ReadingFrom(data, parseFloat, keys), data, parseFloat, key)
  {
    assert (keys + [key])[..|keys + [key]| - 1] == keys;
  }

  /** The row the handler inserts. */
  function ReadingOf(data: map<string, JsValue>, parseFloat: JsValue -> JsNum): (r: map<string, JsNum>)
    ensures forall k :: k in r ==> k in ReadingKeys && Provided(Field(data, k)) && r[k] == parseFloat(Field(data, k))
  {
    ReadingFrom(data, parseFloat, ReadingKeys)
  }

  /** The row is the ten steps in the handler's order. */
  lemma ReadingOfUnrolled(data: map<string, JsValue>, parseFloat: JsValue -> JsNum)
    ensures ReadingOf(data, parseFloat) ==
      Step(Step(Step(Step(Step(Step(Step(Step(Step(Step(map[], data, parseFloat, NValue), data, parseFloat, PValue), data, parseFloat, KValue), data, parseFloat, SoilPh), data, parseFloat, SoilMoisture), data, parseFloat, Temperature), data, parseFloat, Humidity), data, parseFloat, Latitude), data, parseFloat, Longitude), data, parseFloat, Ndvi)
  {
    var ks := ReadingKeys;
    assert ks[..0] == [];
    assert ks[..1] == ks[..0] + [ks[0]];
    ReadingFromSnoc(data, parseFloat, ks[..0], ks[0]);
    assert ks[..2] == ks[..1] + [ks[1]];
    ReadingFromSnoc(data, parseFloat, ks[..1], ks[1]);
    assert ks[..3] == ks[..2] + [ks[2]];
    ReadingFromSnoc(data, parseFloat, ks[..2], ks[2]);
    assert ks[..4] == ks[..3] + [ks[3]];
    ReadingFromSnoc(data, parseFloat, ks[..3], ks[3]);
    assert ks[..5] == ks[..4] + [ks[4]];
    ReadingFromSnoc(data, parseFloat, ks[..4], ks[4]);
    assert ks[..6] == ks[..5] + [ks[5]];
    ReadingFromSnoc(data, parseFloat, ks[..5], ks[5]);
    assert ks[..7] == ks[..6] + [ks[6]];
    ReadingFromSnoc(data, parseFloat, ks[..6], ks[6]);
    assert ks[..8] == ks[..7] + [ks[7]];
    ReadingFromSnoc(data, parseFloat, ks[..7], ks[7]);
    assert ks[..9] == ks[..8] + [ks[8]];
    ReadingFromSnoc(data, parseFloat, ks[..8], ks[8]);
    assert ks[..10] == ks[..9] + [ks[9]];
    ReadingFromSnoc(data, parseFloat, ks[..9], ks[9]);
    assert ks[..10] == ks;
  }

  /** Lines 23-34: start from an empty row and copy the ten fields one
      conditional assignment at a time. */
  method BuildReading(data: map<string, JsValue>, parseFloat: JsValue -> JsNum)
    returns (reading: map<string, JsNum>)
    ensures reading == ReadingOf(data, parseFloat)
  {
    reading := map[];
    ghost var row: map<string, JsNum> := map[];
    if Provided(Field(data, NValue)) {
      reading := reading[NValue := parseFloat(Field(data, NValue))];
    }
    row := Step(row, data, parseFloat, NValue);
    assert reading == row;
    if Provided(Field(data, PValue)) {
      reading := reading[PValue := parseFloat(Field(data, PValue))];
    }
    row := Step(row, data, parseFloat, PValue);
    assert reading == row;
    if Provided(Field(data, KValue)) {
      reading := reading[KValue := parseFloat(Field(data, KValue))];
    }
    row := Step(row, data, parseFloat, KValue);
    assert reading == row;
    if Provided(Field(data, SoilPh)) {
      reading := reading[SoilPh := parseFloat(Field(data, SoilPh))];
    }
    row := Step(row, data, parseFloat, SoilPh);
    assert reading == row;
    if Provided(Field(data, SoilMoisture)) {
      reading := reading[SoilMoisture := parseFloat(Field(data, SoilMoisture))];
    }
    row := Step(row, data, parseFloat, SoilMoisture);
    assert reading == row;
    if Provided(Field(data, Temperature)) {
      reading := reading[Temperature := parseFloat(Field(data, Temperature))];
    }
    row := Step(row, data, parseFloat, Temperature);
    assert reading == row;
    if Provided(Field(data, Humidity)) {
      reading := reading[Humidity := parseFloat(Field(data, Humidity))];
    }
    row := Step(row, data, parseFloat, Humidity);
    assert reading == row;
    if Provided(Field(data, Latitude)) {
      reading := reading[Latitude := parseFloat(Field(data, Latitude))];
    }
    row := Step(row, data, parseFloat, Latitude);
    assert reading == row;
    if Provided(Field(data, Longitude)) {
      reading := reading[Longitude := parseFloat(Field(data, Longitude))];
    }
    row := Step(row, data, parseFloat, Longitude);
    assert reading == row;
    if Provided(Field(data, Ndvi)) {
      reading := reading[Ndvi := parseFloat(Field(data, Ndvi))];
    }
    row := Step(row, data, parseFloat, Ndvi);
    assert reading == row;
    ReadingOfUnrolled(data, parseFloat);
  }

  /** Whatever the key list, a key is in the row exactly when it is listed
      and its input is provided, and its value is then that input's
      `parseFloat`. */
  lemma {:induction false} ReadingFromKeys(data: map<string, JsValue>, parseFloat: JsValue -> JsNum, keys: seq<string>, k: string)
    ensures k in ReadingFrom(data, parseFloat, keys) <==> k in keys && Provided(Field(data, k))
    ensures k in ReadingFrom(data, parseFloat, keys) ==> ReadingFrom(data, parseFloat, keys)[k] == parseFloat(Field(data, k))
  {
    if keys != [] {
      ReadingFromKeys(data, parseFloat, keys[..|keys| - 1], k);
      assert keys == keys[..|keys| - 1] + [keys[|keys| - 1]];
    }
  }

  /** Each of the ten columns is in the row exactly when its input is neither
      `undefined` nor `null`, no other column ever is, and a present value is
      the input's `parseFloat`. */
  lemma ReadingKeysExactly(data: map<string, JsValue>, parseFloat: JsValue -> JsNum, k: string)
    ensures k in ReadingOf(data, parseFloat) <==> k in ReadingKeys && Provided(Field(data, k))
    ensures k in ReadingOf(data, parseFloat) ==> ReadingOf(data, parseFloat)[k] == parseFloat(Field(data, k))
  {
    ReadingFromKeys(data, parseFloat, ReadingKeys, k);
  }

  /** A field outside the ten, or one that is `null` or `undefined`, added to
      the body leaves the row as it was. */
  lemma {:induction false} ExtraFieldIgnored(data: map<string, JsValue>, parseFloat: JsValue -> JsNum,
                                             keys: seq<string>, key: string, v: JsValue)
    requires key !in keys || !Provided(v)
    requires key !in data
    ensures ReadingFrom(data[key := v], parseFloat, keys) == ReadingFrom(data, parseFloat, keys)
  {
    if keys != [] {
      ExtraFieldIgnored(data, parseFloat, keys[..|keys| - 1], key, v);
      var last := keys[|keys| - 1];
      assert Field(data[key := v], last) == (if last == key then v else Field(data, last));
    }
  }

  /** A body with none of the fields gives the empty row, which is still
      inserted. */
  lemma EmptyBodyEmptyRow(data: map<string, JsValue>, parseFloat: JsValue -> JsNum)
    requires forall k :: k in ReadingKeys ==> !Provided(Field(data, k))
    ensures ReadingOf(data, parseFloat) == map[]
  {
    forall k | k in ReadingOf(data, parseFloat)
      ensures false
    {
      ReadingKeysExactly(data, parseFloat, k);
    }
  }

  // ---------------------------------------------------------------------------
  // The request handler

  /** The parsed request body: `null`, an object with its fields, or any
      other JSON value (a number, string, boolean or array), on which every
      field reads `undefined`. */
  datatype Payload = JsonNull | JsonObject(fields: map<string, JsValue>) | OtherJson

  /** The request: its method and its body, `Err` where `req.json()` throws. */
  datatype Request = Request(httpMethod: string, body: Result<Payload>)

  /** The outcome of `insert([reading]).select()`: an error message or the
      inserted rows. */
  datatype InsertOutcome = InsertFailed(message: string) | Inserted(rows: JsValue)

  datatype UploadResponse =
    | Preflight
    | Uploaded(message: string, data: JsValue)
    | Rejected(error: string)
  {
    function Status(): (code: nat)
      ensures code == 400 <==> Rejected?
    {
      if Rejected? then 400 else 200
    }
    predicate Success() { Uploaded? }
  }

  const UploadedMessage: string := "Data uploaded successfully"

  /** The error Deno's engine raises for `data.n_value` on a `null` body. */
  const NullBodyError: string := "Cannot read properties of null (reading 'n_value')"

  /** The fields of a body that is not `null`. */
  function FieldsOf(p: Payload): map<string, JsValue>
    requires !p.JsonNull?
  {
    if p.JsonObject? then p.fields else map[]
  }

  /** The handler; the database insert is a parameter. */
  method HandleUpload(req: Request, parseFloat: JsValue -> JsNum, insert: map<string, JsNum> -> InsertOutcome)
    returns (resp: UploadResponse)
    ensures resp == Preflight <==> req.httpMethod == "OPTIONS"
    ensures resp.Uploaded? ==> resp.message == UploadedMessage
    ensures req.httpMethod != "OPTIONS" && req.body.Err? ==> resp == Rejected(req.body.message)
    ensures req.httpMethod != "OPTIONS" && req.body == Ok(JsonNull) ==> resp == Rejected(NullBodyError)
    ensures req.httpMethod != "OPTIONS" && req.body.Ok? && !req.body.value.JsonNull? ==>
      match insert(ReadingOf(FieldsOf(req.body.value), parseFloat))
      case InsertFailed(m) => resp == Rejected(m)
      case Inserted(rows) => resp == Uploaded(UploadedMessage, rows)
  {
    if req.httpMethod == "OPTIONS" {
      return Preflight;
    }
    if req.body.Err? {
      return Rejected(req.body.message);
    }
    var payload := req.body.value;
    if payload.JsonNull? {
      return Rejected(NullBodyError);
    }
    var reading := BuildReading(FieldsOf(payload), parseFloat);
    var outcome := insert(reading);
    match outcome
    case InsertFailed(m) =>
      resp := Rejected(m);
    case Inserted(rows) =>
      resp := Uploaded(UploadedMessage, rows);
  }
}
