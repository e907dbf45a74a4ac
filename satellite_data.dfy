/** The satellite-data endpoint (supabase/functions/satellite-data/index.ts):
    it checks the bounding box and the SentinelHub credentials, exchanges the
    credentials for a token, asks for the NDVI raster of the box and reports
    the mean of the samples strictly inside (-1, 1), rounded to three
    decimals. Every failure is answered with status 500 and `{error}`. */
module SatelliteData {
  import opened Common
  import SatelliteNdvi

  // ---------------------------------------------------------------------------
  // The averaging loop and its specification

  /** `v > -1 && v < 1` (line 102): both bounds exclusive; NaN and the
      infinities fail it. */
  predicate Inside(x: JsNum) {
    x.Finite? && -1.0 < x.v < 1.0
  }

  /** The samples the loop accumulates, in raster order. */
  function InsideSamples(xs: seq<JsNum>): (vs: seq<real>)
    ensures |vs| <= |xs|
    ensures forall i :: 0 <= i < |vs| ==> -1.0 < vs[i] < 1.0
    ensures forall i :: 0 <= i < |xs| && Inside(xs[i]) ==> xs[i].v in vs
    ensures forall v :: v in vs ==> Finite(v) in xs
    ensures forall v: real :: -1.0 < v < 1.0 ==> multiset(vs)[v] == multiset(xs)[Finite(v)]
  {
    if xs == [] then []
    else
      var init, last := xs[..|xs| - 1], xs[|xs| - 1];
      assert xs == init + [last];
      assert multiset(xs) == multiset(init) + multiset{last};
      InsideSamples(init) + (if Inside(last) then [last.v] else [])
  }

  lemma InsideSamplesAppend(xs: seq<JsNum>, x: JsNum)
    ensures InsideSamples(xs + [x]) == InsideSamples(xs) + (if Inside(x) then [x.v] else [])
  {
    assert (xs + [x])[..|xs + [x]| - 1] == xs;
  }

  /** A non-empty sum of values strictly inside (-1, 1) lies strictly inside (-n, n). */
  lemma {:induction false} StrictSumBounds(vs: seq<real>)
    requires |vs| > 0
    requires forall i :: 0 <= i < |vs| ==> -1.0 < vs[i] < 1.0
    ensures -(|vs| as real) < Sum(vs) < |vs| as real
  {
    if |vs| > 1 {
      StrictSumBounds(vs[..|vs| - 1]);
    }
  }

  /** A total strictly between -n and n, shared out over n > 0, lies
      strictly inside (-1, 1). */
  lemma StrictMeanBounds(total: real, n: real)
    requires n > 0.0 && -n < total < n
    ensures -1.0 < total / n < 1.0
  {
    assert total / n * n == total;
  }

  /** Line 108 over the raster: the mean of the inside samples, 0 when there
      are none. A mean lies strictly inside (-1, 1). */
  function OpenAverage(xs: seq<JsNum>): (avg: real)
    ensures |InsideSamples(xs)| == 0 ==> avg == 0.0
    ensures |InsideSamples(xs)| > 0 ==> -1.0 < avg < 1.0
  {
    var vs := InsideSamples(xs);
    if |vs| > 0 then
      StrictSumBounds(vs);
      StrictMeanBounds(Sum(vs), |vs| as real);
      Sum(vs) / |vs| as real
    else 0.0
  }

  lemma MeanTimesCount(total: real, n: real)
    requires n > 0.0
    ensures total / n * n == total
  {
  }

  /** The average shares the sum of the inside samples out over their count. */
  lemma {:induction false} OpenAverageIsMean(xs: seq<JsNum>)
    requires |InsideSamples(xs)| > 0
    ensures OpenAverage(xs) * (|InsideSamples(xs)| as real) == Sum(InsideSamples(xs))
  {
    var vs := InsideSamples(xs);
    var n := |vs| as real;
    var t := Sum(vs);
    var a := OpenAverage(xs);
    assert a == t / n;
    MeanTimesCount(t, n);
    assert a * n == t / n * n;
  }

  /** Lines 99-108: one pass over the decoded raster that keeps the running
      sum and count of the inside samples, then divides. */
  method AverageNdvi(ndviValues: array<JsNum>) returns (avg: real)
    ensures avg == OpenAverage(ndviValues[..])
  {
    var sum := 0.0;
    var count := 0;
    for i := 0 to ndviValues.Length
      invariant sum == Sum(InsideSamples(ndviValues[..i]))
      invariant count == |InsideSamples(ndviValues[..i])|
    {
      var v := ndviValues[i];
      assert ndviValues[..i + 1] == ndviValues[..i] + [v];
      InsideSamplesAppend(ndviValues[..i], v);
      if v.Finite? && v.v > -1.0 && v.v < 1.0 {
        SumAppend(InsideSamples(ndviValues[..i]), v.v);
        sum := sum + v.v;
        count := count + 1;
      } else {
        assert InsideSamples(ndviValues[..i + 1]) == InsideSamples(ndviValues[..i]);
      }
    }
    assert ndviValues[..] == ndviValues[..ndviValues.Length];
    avg := if count > 0 then sum / count as real else 0.0;
  }

  /** Samples on the boundary or outside never move the mean: appending
      them changes nothing. */
  lemma OutsideSamplesIgnored(xs: seq<JsNum>, x: JsNum)
    requires !Inside(x)
    ensures OpenAverage(xs + [x]) == OpenAverage(xs)
  {
    InsideSamplesAppend(xs, x);
    assert InsideSamples(xs + [x]) == InsideSamples(xs);
  }

  /** The mean is strict, but the rounded report is not: a raster whose
      only sample is 0.9996 is reported as exactly 1. */
  lemma RoundingReachesTheBound()
    ensures ToFixed3Value(OpenAverage([Finite(0.9996)])) == 1.0
  {
    assert [Finite(0.9996)][..0] == [];
    assert InsideSamples([Finite(0.9996)]) == [0.9996];
    assert [0.9996][..0] == [];
    assert OpenAverage([Finite(0.9996)]) == 0.9996;
    assert RoundHalfUp(0.9996 * 1000.0) == 1000;
  }

  // ---------------------------------------------------------------------------
  // The request handler

  /** The request: its method and the `bbox` field of its body, `Err` where
      `req.json()` or the destructuring throws. */
  datatype Request = Request(httpMethod: string, bbox: Result<JsValue>)

  /** The process request: the box, forwarded as given, and the token. The
      fixed collection, cloud filter, raster size and evalscript are left out. */
  datatype ProcessRequest = ProcessRequest(bbox: JsValue, accessToken: JsValue)

  /** The outcome of the process call: a thrown error, a non-ok status with
      its body text, or the raster decoded as 32-bit floats. */
  datatype ProcessOutcome = ProcessThrew(message: string) | NotOk(errorText: string) | Raster(values: seq<JsNum>)

  datatype DataResponse =
    | Preflight
    | Averaged(avgNdvi: real, timestamp: string)
    | Failed(error: string)
  {
    function Status(): (code: nat)
      ensures code == 500 <==> Failed?
    {
      if Failed? then 500 else 200
    }
  }

  const BboxRequired: string := "Bounding box is required"
  const CredentialsMissing: string := "SentinelHub credentials missing."

  /** The handler. The token and process calls are parameters, and so is the
      clock reading that becomes the timestamp. */
  method HandleSatelliteData(req: Request, clientId: Option<string>, clientSecret: Option<string>,
                             exchange: string -> SatelliteNdvi.TokenOutcome,
                             process: ProcessRequest -> ProcessOutcome, now: string)
    returns (resp: DataResponse)
    ensures resp == Preflight <==> req.httpMethod == "OPTIONS"
    ensures resp.Averaged? ==> -1.0 <= resp.avgNdvi <= 1.0 && resp.timestamp == now
    ensures req.httpMethod != "OPTIONS" && req.bbox.Err? ==> resp == Failed(req.bbox.message)
    ensures req.httpMethod != "OPTIONS" && req.bbox.Ok? && !Truthy(req.bbox.value) ==> resp == Failed(BboxRequired)
    ensures req.httpMethod != "OPTIONS" && req.bbox.Ok? && Truthy(req.bbox.value)
            && !(Configured(clientId) && Configured(clientSecret))
            ==> resp == Failed(CredentialsMissing)
    ensures req.httpMethod != "OPTIONS" && req.bbox.Ok? && Truthy(req.bbox.value)
            && Configured(clientId) && Configured(clientSecret) ==>
      match exchange(SatelliteNdvi.TokenForm(clientId, clientSecret))
      case TokenThrew(m) => resp == Failed(m)
      case Token(t) =>
        match process(ProcessRequest(req.bbox.value, t))
        case ProcessThrew(m) => resp == Failed(m)
        case NotOk(text) => resp == Failed(text)
        case Raster(vs) => resp == Averaged(ToFixed3Value(OpenAverage(vs)), now)
  {
    if req.httpMethod == "OPTIONS" {
      return Preflight;
    }
    if req.bbox.Err? {
      return Failed(req.bbox.message);
    }
    var bbox := req.bbox.value;
    if !Truthy(bbox) {
      return Failed(BboxRequired);
    }
    if !Configured(clientId) || !Configured(clientSecret) {
      return Failed(CredentialsMissing);
    }
    var token := exchange(SatelliteNdvi.TokenForm(clientId, clientSecret));
    if token.TokenThrew? {
      return Failed(token.message);
    }
    var response := process(ProcessRequest(bbox, token.accessToken));
    match response
    case ProcessThrew(m) =>
      resp := Failed(m);
    case NotOk(text) =>
      resp := Failed(text);
    case Raster(vs) =>
      var ndviValues := new JsNum[|vs|](i requires 0 <= i < |vs| => vs[i]);
      assert ndviValues[..] == vs;
      var avg := AverageNdvi(ndviValues);
      resp := Averaged(ToFixed3Value(avg), now);
  }
}
