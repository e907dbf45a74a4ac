/** The NDVI endpoint (supabase/functions/satellite-ndvi/index.ts): it checks
    the coordinates, exchanges the SentinelHub credentials for a token, asks
    for the NDVI samples of a small box around the point, averages the valid
    samples and reports the average mapped from [-1, 1] onto [0, 1]. Every
    failure is answered with status 200, `success: false` and NDVI 0.5. */
module SatelliteNdvi {
  import opened Common

  // ---------------------------------------------------------------------------
  // Averaging the samples

  /** `!isNaN(val) && val >= -1 && val <= 1` (line 124); the infinities fail
      the range check. */
  predicate ValidSample(x: JsNum) {
    x.Finite? && -1.0 <= x.v <= 1.0
  }

  /** `values.filter(...)`: the valid samples in their original order. */
  function ValidSamples(xs: seq<JsNum>): (vs: seq<real>)
    ensures |vs| <= |xs|
    ensures forall i :: 0 <= i < |vs| ==> -1.0 <= vs[i] <= 1.0
    ensures forall i :: 0 <= i < |xs| && ValidSample(xs[i]) ==> xs[i].v in vs
    ensures forall v :: v in vs ==> Finite(v) in xs
    ensures forall v: real :: -1.0 <= v <= 1.0 ==> multiset(vs)[v] == multiset(xs)[Finite(v)]
  {
    if xs == [] then []
    else
      var init, last := xs[..|xs| - 1], xs[|xs| - 1];
      assert xs == init + [last];
      assert multiset(xs) == multiset(init) + multiset{last};
      ValidSamples(init) + (if ValidSample(last) then [last.v] else [])
  }

  /** Sample by sample: one more sample adds itself when valid and nothing
      otherwise. */
  lemma ValidSamplesAppend(xs: seq<JsNum>, x: JsNum)
    ensures ValidSamples(xs + [x]) == ValidSamples(xs) + (if ValidSample(x) then [x.v] else [])
  {
    assert (xs + [x])[..|xs + [x]| - 1] == xs;
  }

  /** A sum of values in [-1, 1] lies in [-n, n]. */
  lemma {:induction false} SumBounds(vs: seq<real>)
    requires forall i :: 0 <= i < |vs| ==> -1.0 <= vs[i] <= 1.0
    ensures -(|vs| as real) <= Sum(vs) <= |vs| as real
  {
    if vs != [] {
      SumBounds(vs[..|vs| - 1]);
    }
  }

  /** A total between -n and n, shared out over n > 0, lies in [-1, 1]. */
  lemma MeanBounds(total: real, n: real)
    requires n > 0.0 && -n <= total <= n
    ensures -1.0 <= total / n <= 1.0
  {
    assert total / n * n == total;
  }

  /** The first series of the response: its `default` array, `None` where
      it is missing or not an array. */
  datatype Series = Series(values: Option<seq<JsNum>>)

  /** The parsed process response: its `data` array, `None` where the
      response or its `data` is missing or not an array. */
  datatype NdviReply = NdviReply(data: Option<seq<Series>>)

  const DefaultNdvi: real := 0.5

  /** The valid samples of the reply's first series, or none at all. */
  function ReplySamples(reply: NdviReply): seq<real> {
    if reply.data.Some? && |reply.data.value| > 0 && reply.data.value[0].values.Some? then
      ValidSamples(reply.data.value[0].values.value)
    else []
  }

  /** `avgNdvi` after lines 117-134: the mean of the valid samples, 0.5 when
      there are none. */
  function AverageNdvi(reply: NdviReply): (avg: real)
    ensures -1.0 <= avg <= 1.0
    ensures |ReplySamples(reply)| == 0 ==> avg == DefaultNdvi
    ensures |ReplySamples(reply)| > 0 ==> avg * |ReplySamples(reply)| as real == Sum(ReplySamples(reply))
  {
    var vs := ReplySamples(reply);
    if |vs| > 0 then
      SumBounds(vs);
      MeanBounds(Sum(vs), |vs| as real);
      Sum(vs) / |vs| as real
    else DefaultNdvi
  }

  /** `Math.max(0, Math.min(1, (avgNdvi + 1) / 2))`. */
  function Normalize(avg: real): (r: real)
    ensures 0.0 <= r <= 1.0
    ensures -1.0 <= avg <= 1.0 ==> r == (avg + 1.0) / 2.0
  {
    var x := (avg + 1.0) / 2.0;
    if x < 0.0 then 0.0 else if x > 1.0 then 1.0 else x
  }

  /** The clamp never bites on an average, and a reply without samples is
      reported as 0.75. */
  lemma NormalizedAverage(reply: NdviReply)
    ensures Normalize(AverageNdvi(reply)) == (AverageNdvi(reply) + 1.0) / 2.0
    ensures |ReplySamples(reply)| == 0 ==> Normalize(AverageNdvi(reply)) == 0.75
  {
  }

  // ---------------------------------------------------------------------------
  // The request handler

  /** `latitude` and `longitude` of the request body, `None` where absent or
      `null`. */
  datatype Coords = Coords(latitude: Option<real>, longitude: Option<real>)

  /** The request: its method and its body, `Err` where `req.json()` or the
      destructuring throws. */
  datatype Request = Request(httpMethod: string, body: Result<Coords>)

  /** A coordinate passes `!latitude || !longitude` only when present and not 0. */
  predicate CoordinateGiven(c: Option<real>) {
    c.Some? && c.value != 0.0
  }

  const Offset: real := 0.005

  /** The bounding box of lines 35-41: [west, south, east, north]. */
  function BoundingBox(latitude: real, longitude: real): (bbox: seq<real>)
    ensures |bbox| == 4
    ensures bbox[2] - bbox[0] == 2.0 * Offset && bbox[3] - bbox[1] == 2.0 * Offset
    ensures (bbox[0] + bbox[2]) / 2.0 == longitude && (bbox[1] + bbox[3]) / 2.0 == latitude
  {
    [longitude - Offset, latitude - Offset, longitude + Offset, latitude + Offset]
  }

  /** The token request's form body; an unset variable reads `undefined`. */
  function TokenForm(clientId: Option<string>, clientSecret: Option<string>): string {
    "grant_type=client_credentials&client_id=" + clientId.GetOr("undefined")
      + "&client_secret=" + clientSecret.GetOr("undefined")
  }

  /** The outcome of the token exchange: a thrown error or the `access_token`
      field of its JSON body. */
  datatype TokenOutcome = TokenThrew(message: string) | Token(accessToken: JsValue)

  /** The process request: the box and the token it is sent with. The time
      range, taken from the clock, is left out. */
  datatype ProcessRequest = ProcessRequest(bbox: seq<real>, accessToken: JsValue)

  /** The outcome of the process call: a thrown error, a non-ok status, or
      the parsed response. */
  datatype ProcessOutcome = ProcessThrew(message: string) | NotOk(status: nat) | Replied(reply: NdviReply)

  /** The response body; every variant is sent with status 200. */
  datatype NdviResponse =
    | Preflight
    | Reported(ndvi: real, latitude: real, longitude: real)
    | Fallback(error: string, ndvi: real)
  {
    function Status(): nat { 200 }
    predicate Success() { Reported? }
  }

  const CoordsRequired: string := "Latitude and longitude are required"

  function HandleNdvi(req: Request, clientId: Option<string>, clientSecret: Option<string>,
                      exchange: string -> TokenOutcome, process: ProcessRequest -> ProcessOutcome): (resp: NdviResponse)
    ensures resp == Preflight <==> req.httpMethod == "OPTIONS"
    ensures resp.Fallback? ==> resp.ndvi == DefaultNdvi
    ensures resp.Reported? ==> 0.0 <= resp.ndvi <= 1.0
    ensures req.httpMethod != "OPTIONS" && req.body.Err? ==> resp == Fallback(req.body.message, DefaultNdvi)
    ensures req.httpMethod != "OPTIONS" && req.body.Ok? ==>
      (!CoordinateGiven(req.body.value.latitude) || !CoordinateGiven(req.body.value.longitude) ==> resp == Fallback(CoordsRequired, DefaultNdvi))
    ensures req.httpMethod != "OPTIONS" && req.body.Ok? && CoordinateGiven(req.body.value.latitude) && CoordinateGiven(req.body.value.longitude) ==>
      var lat := req.body.value.latitude.value;
      var lon := req.body.value.longitude.value;
      match exchange(TokenForm(clientId, clientSecret))
      case TokenThrew(m) => resp == Fallback(m, DefaultNdvi)
      case Token(t) =>
        match process(ProcessRequest(BoundingBox(lat, lon), t))
        case ProcessThrew(m) => resp == Fallback(m, DefaultNdvi)
        case NotOk(status) => resp == Fallback("SentinelHub API error: " + NatToString(status), DefaultNdvi)
        case Replied(reply) => resp == Reported(ToFixed3Value(Normalize(AverageNdvi(reply))), lat, lon)
  {
    if req.httpMethod == "OPTIONS" then Preflight
    else match req.body
      case Err(m) => Fallback(m, DefaultNdvi)
      case Ok(coords) =>
        if !CoordinateGiven(coords.latitude) || !CoordinateGiven(coords.longitude) then Fallback(CoordsRequired, DefaultNdvi)
        else
          var lat := coords.latitude.value;
          var lon := coords.longitude.value;
          match exchange(TokenForm(clientId, clientSecret))
          case TokenThrew(m) => Fallback(m, DefaultNdvi)
          case Token(t) =>
            match process(ProcessRequest(BoundingBox(lat, lon), t))
            case ProcessThrew(m) => Fallback(m, DefaultNdvi)
            case NotOk(status) => Fallback("SentinelHub API error: " + NatToString(status), DefaultNdvi)
            case Replied(reply) => Reported(ToFixed3Value(Normalize(AverageNdvi(reply))), lat, lon)
  }

  /** A zero coordinate counts as missing: the point (0, 0) and every point on
      the equator or the prime meridian are refused. */
  lemma ZeroCoordinateRefused(lon: real, exchange: string -> TokenOutcome, process: ProcessRequest -> ProcessOutcome)
    ensures HandleNdvi(Request("POST", Ok(Coords(Some(0.0), Some(lon)))), None, None, exchange, process)
         == Fallback(CoordsRequired, DefaultNdvi)
  {
  }
}
