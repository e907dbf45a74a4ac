/** The profile-recommendation endpoint (supabase/functions/ai-recommendations/index.ts):
    it validates the farm profile in the request, checks the provider
    credentials, asks the chat-completion provider with a fixed prompt,
    pulls the JSON payload out of the first fenced code block of the answer
    and falls back to the raw answer when that payload does not parse. */
module AiRecommendations {
  import opened Common

  // ---------------------------------------------------------------------------
  // Fenced code blocks

  /** The openers of the two regular expressions of lines 91-92 and their
      common closing fence. */
  const JsonOpen: string := "```json\n"
  const PlainOpen: string := "```\n"
  const Close: string := "\n```"

  predicate OccursAt(s: string, pat: string, i: nat) {
    i + |pat| <= |s| && s[i..i + |pat|] == pat
  }

  /** The first closing fence that starts at or after `j`: the lazy
      `([\s\S]*?)\n```` stops at the earliest one. */
  function CloseFrom(s: string, j: nat): (k: Option<nat>)
    ensures k.Some? ==> j <= k.value && OccursAt(s, Close, k.value)
    ensures k.Some? ==> forall m :: j <= m < k.value ==> !OccursAt(s, Close, m)
    ensures k.None? ==> forall m :: j <= m ==> !OccursAt(s, Close, m)
    decreases |s| - j
  {
    if j + |Close| > |s| then None
    else if OccursAt(s, Close, j) then Some(j)
    else CloseFrom(s, j + 1)
  }

  /** The leftmost match at or after `i` of `open`, a lazy capture and the
      closing fence: the position of the opener and of the closing fence. */
  function MatchFrom(s: string, open: string, i: nat): (r: Option<(nat, nat)>)
    requires open != ""
    ensures r.Some? ==>
      i <= r.value.0 && OccursAt(s, open, r.value.0) && CloseFrom(s, r.value.0 + |open|) == Some(r.value.1)
    ensures r.Some? ==> forall p :: i <= p < r.value.0 ==> !(OccursAt(s, open, p) && CloseFrom(s, p + |open|).Some?)
    ensures r.None? ==> forall p :: i <= p ==> !(OccursAt(s, open, p) && CloseFrom(s, p + |open|).Some?)
    decreases |s| - i
  {
    if i + |open| > |s| then None
    else if OccursAt(s, open, i) && CloseFrom(s, i + |open|).Some? then Some((i, CloseFrom(s, i + |open|).value))
    else MatchFrom(s, open, i + 1)
  }

  /** `s.match(/<open>([\s\S]*?)\n```/)?.[1]`: the text between the opener
      and the closing fence of the leftmost match. */
  function Capture(s: string, open: string): (c: Option<string>)
    requires open != ""
    ensures c.Some? <==> MatchFrom(s, open, 0).Some?
  {
    match MatchFrom(s, open, 0)
    case None => None
    case Some((a, b)) => Some(s[a + |open|..b])
  }

  /** The text handed to `JSON.parse` (lines 91-94): the capture of the
      "```json" pattern, else the capture of the bare "```" pattern, else
      the whole response. */
  function Candidate(s: string): (c: string)
    ensures Capture(s, JsonOpen).Some? ==> c == Capture(s, JsonOpen).value
    ensures Capture(s, JsonOpen).None? && Capture(s, PlainOpen).Some? ==> c == Capture(s, PlainOpen).value
    ensures Capture(s, JsonOpen).None? && Capture(s, PlainOpen).None? ==> c == s
    ensures |c| <= |s|
  {
    if Capture(s, JsonOpen).Some? then CaptureShorter(s, JsonOpen); Capture(s, JsonOpen).value
    else if Capture(s, PlainOpen).Some? then CaptureShorter(s, PlainOpen); Capture(s, PlainOpen).value
    else s
  }

  /** A capture is strictly shorter than the response: it leaves out at
      least an opener and a closing fence. */
  lemma CaptureShorter(s: string, open: string)
    requires open != ""
    requires Capture(s, open).Some?
    ensures |Capture(s, open).value| <= |s| - |open| - |Close|
  {
    var (a, b) := MatchFrom(s, open, 0).value;
    assert b + |Close| <= |s|;
  }

  /** The whole response is parsed exactly when neither pattern matches. */
  lemma CandidateIsWholeTextIffNoFence(s: string)
    ensures Candidate(s) == s <==> Capture(s, JsonOpen).None? && Capture(s, PlainOpen).None?
  {
    if Capture(s, JsonOpen).Some? {
      CaptureShorter(s, JsonOpen);
    } else if Capture(s, PlainOpen).Some? {
      CaptureShorter(s, PlainOpen);
    }
  }

  /** The lazy capture never contains the closing fence. */
  lemma CaptureHasNoClose(s: string, open: string)
    requires open != ""
    requires Capture(s, open).Some?
    ensures forall m :: !OccursAt(Capture(s, open).value, Close, m)
  {
    var (a, b) := MatchFrom(s, open, 0).value;
    var c := s[a + |open|..b];
    forall m: nat | OccursAt(c, Close, m)
      ensures false
    {
      assert s[a + |open| + m..a + |open| + m + |Close|] == c[m..m + |Close|];
      assert OccursAt(s, Close, a + |open| + m);
    }
  }

  /** A payload without a closing fence, wrapped in a "```json" block, is
      extracted exactly. */
  lemma FencedPayloadExtracted(payload: string)
    requires forall m :: !OccursAt(payload, Close, m)
    ensures Candidate(JsonOpen + payload + Close) == payload
  {
    var s := JsonOpen + payload + Close;
    var e: nat := |JsonOpen| + |payload|;
    assert s[..|JsonOpen|] == JsonOpen;
    assert s[e..] == Close;
    assert OccursAt(s, Close, e);
    forall m | |JsonOpen| <= m < e
      ensures !OccursAt(s, Close, m)
    {
      if m + |Close| <= e {
        assert s[m..m + |Close|] == payload[m - |JsonOpen|..m - |JsonOpen| + |Close|];
        assert !OccursAt(payload, Close, m - |JsonOpen|);
      } else {
        assert s[e] == '\n' && Close[e - m] == '`';
        assert s[m..m + |Close|][e - m] == s[e];
      }
    }
    CloseFromFirst(s, |JsonOpen|, e);
    assert MatchFrom(s, JsonOpen, 0) == Some((0, e));
    assert s[|JsonOpen|..e] == payload;
  }

  /** The first closing fence is found wherever the search starts before it. */
  lemma {:induction false} CloseFromFirst(s: string, j: nat, k: nat)
    requires j <= k && OccursAt(s, Close, k)
    requires forall m :: j <= m < k ==> !OccursAt(s, Close, m)
    ensures CloseFrom(s, j) == Some(k)
    decreases k - j
  {
    if j < k {
      CloseFromFirst(s, j + 1, k);
    }
  }

  // ---------------------------------------------------------------------------
  // Parsing the answer

  const ParseFailure: string := "Response could not be parsed as structured data"

  /** The endpoint's result: the parsed JSON value as it is, or the raw
      answer with an error note (`rawResponse`/`error` of the
      `AIRecommendations` type, src/types/agriculture.ts:40-67). */
  datatype Recommendations<J> = Structured(parsed: J) | RawFallback(rawResponse: JsValue, error: string)

  /** Lines 88-102. `parse` is `JSON.parse`, `None` where it throws. A
      content that is not a string has no `match` method; the TypeError is
      caught by the same handler and gives the raw fallback. */
  function Recommend<J>(content: JsValue, parse: string -> Option<J>): (r: Recommendations<J>)
    ensures r.Structured? <==> content.Str? && parse(Candidate(content.s)).Some?
    ensures r.Structured? ==> r.parsed == parse(Candidate(content.s)).value
    ensures r.RawFallback? ==> r == RawFallback(content, ParseFailure)
  {
    if !content.Str? then RawFallback(content, ParseFailure)
    else match parse(Candidate(content.s))
      case Some(j) => Structured(j)
      case None => RawFallback(content, ParseFailure)
  }

  /** Only the one candidate is parsed: two parsers that agree on it give the
      same result, whatever they do elsewhere. */
  lemma OnlyCandidateParsed<J>(s: string, parse1: string -> Option<J>, parse2: string -> Option<J>)
    requires parse1(Candidate(s)) == parse2(Candidate(s))
    ensures Recommend(Str(s), parse1) == Recommend(Str(s), parse2)
  {
  }

  // ---------------------------------------------------------------------------
  // The prompt

  /** The farm profile read from the request body. */
  datatype Profile = Profile(cropType: JsValue, soilType: JsValue, area: JsValue, season: JsValue)

  function ProfileOf(body: map<string, JsValue>): Profile {
    Profile(Field(body, "cropType"), Field(body, "soilType"), Field(body, "area"), Field(body, "season"))
  }

  /** `${v}` in a template literal; `showNum` is JavaScript's number-to-string
      conversion and an object or array carries its own rendering. */
  function Shown(v: JsValue, showNum: JsNum -> string): string {
    match v
    case Undefined => "undefined"
    case Null => "null"
    case Bool(b) => if b then "true" else "false"
    case Num(x) => showNum(x)
    case Str(s) => s
    case Compound(shown) => shown
  }

  /** `${v || default}`. */
  function OrDefault(v: JsValue, default: string, showNum: JsNum -> string): (s: string)
    ensures !Truthy(v) ==> s == default
    ensures Truthy(v) ==> s == Shown(v, showNum)
  {
    if Truthy(v) then Shown(v, showNum) else default
  }

  /** The four values the prompt shows, as they are rendered into it. */
  datatype PromptValues = PromptValues(cropType: string, soilType: string, area: string, season: string)

  function PromptValuesOf(p: Profile, showNum: JsNum -> string): PromptValues {
    PromptValues(Shown(p.cropType, showNum), Shown(p.soilType, showNum),
                 OrDefault(p.area, "Not specified", showNum), OrDefault(p.season, "Current season", showNum))
  }

  /** The crop and soil types are shown verbatim; an area or a season that
      is falsy (0 and "" included) is replaced by its default text, and a
      truthy one is shown as it is. */
  lemma PromptShowsProfile(p: Profile, showNum: JsNum -> string)
    ensures p.cropType.Str? ==> PromptValuesOf(p, showNum).cropType == p.cropType.s
    ensures p.soilType.Str? ==> PromptValuesOf(p, showNum).soilType == p.soilType.s
    ensures !Truthy(p.area) ==> PromptValuesOf(p, showNum).area == "Not specified"
    ensures !Truthy(p.season) ==> PromptValuesOf(p, showNum).season == "Current season"
    ensures Truthy(p.area) ==> PromptValuesOf(p, showNum).area == Shown(p.area, showNum)
    ensures Truthy(p.season) ==> PromptValuesOf(p, showNum).season == Shown(p.season, showNum)
  {
  }

  /** The opening of the template of lines 23-58, up to the label of the crop type. */
  const ConsultantHead: string := "You are an expert agricultural consultant. Provide detailed fertilizer and pest management recommendations for the following scenario:\n\nCrop Type: "

  /** The closing of the template, after the season. */
  const ConsultantTail: string := "\n\nPlease provide a comprehensive analysis in JSON format with the following structure:\n{\n  \"fertilizerRecommendations\": {\n    \"nitrogen\": { \"amount\": \"kg/hectare\", \"timing\": \"when to apply\", \"type\": \"recommended fertilizer type\" },\n    \"phosphorus\": { \"amount\": \"kg/hectare\", \"timing\": \"when to apply\", \"type\": \"recommended fertilizer type\" },\n    \"potassium\": { \"amount\": \"kg/hectare\", \"timing\": \"when to apply\", \"type\": \"recommended fertilizer type\" },\n    \"micronutrients\": [\"list of recommended micronutrients with amounts\"]\n  },\n  \"pestManagement\": {\n    \"commonPests\": [\"list of common pests for this crop\"],\n    \"preventiveMeasures\": [\"list of preventive measures\"],\n    \"organicSolutions\": [\"list of organic pest control methods\"],\n    \"chemicalOptions\": [\"list of chemical options if needed\"],\n    \"monitoringTips\": [\"list of monitoring recommendations\"]\n  },\n  \"irrigationAdvice\": {\n    \"frequency\": \"irrigation frequency recommendation\",\n    \"amount\": \"water amount recommendation\",\n    \"method\": \"recommended irrigation method\",\n    \"criticalStages\": [\"growth stages requiring more water\"]\n  },\n  \"seasonalTips\": [\"list of 5-7 actionable seasonal farming tips\"],\n  \"yieldPrediction\": {\n    \"expectedYield\": \"estimated yield range\",\n    \"factors\": [\"key factors affecting yield\"]\n  }\n}\n\nProvide specific, actionable recommendations based on agricultural best practices."

  /** The interpolated values in template order. */
  function Slots(v: PromptValues): (vs: seq<string>)
    ensures |vs| == 4
  {
    [v.cropType, v.soilType, v.area, v.season]
  }

  /** The template with a given opening and closing: whatever those are, the
      crop type, the soil type, the area and the season each stand verbatim
      right after their own label. */
  function ConsultantFill(head: string, tail: string, v: PromptValues): (p: string)
    ensures var segments := [head, "\nSoil Type: ", "\nArea: ", " hectares\nSeason: ", tail];
      forall i :: 0 <= i < 4 ==> ShowsAt(p, segments[i], Slots(v)[i], SlotStart(segments, Slots(v), i))
  {
    var segments := [head, "\nSoil Type: ", "\nArea: ", " hectares\nSeason: ", tail];
    FillShowsEvery(segments, Slots(v));
    Fill(segments, Slots(v))
  }

  /** The prompt of lines 23-58 with its four values filled in. */
  function ConsultantPrompt(v: PromptValues): string {
    ConsultantFill(ConsultantHead, ConsultantTail, v)
  }

  // ---------------------------------------------------------------------------
  // The request handler

  /** The HTTP request: its method and its JSON body, `Err` where
      `req.json()` or the destructuring of its result throws. */
  datatype Request = Request(httpMethod: string, body: Result<map<string, JsValue>>)

  /** `ONSPACE_AI_API_KEY` and `ONSPACE_AI_BASE_URL`, `None` when unset. */
  datatype Env = Env(apiKey: Option<string>, baseUrl: Option<string>)

  /** The call to the provider (lines 60-77). The prompt travels as the four
      values it shows; the text around them is fixed. */
  datatype ProviderRequest = ProviderRequest(
    url: string, authorization: string, model: string, prompt: PromptValues, temperature: real, maxTokens: nat)

  /** What the provider call gives: a thrown error (from `fetch`, from
      reading the body as JSON or from a missing `choices[0].message`), a
      non-ok status with its body text, or the message content. */
  datatype Completion = Threw(message: string) | NotOk(errorText: string) | Answered(content: JsValue)

  const CropSoilRequired: string := "Crop type and soil type are required"
  const CredentialsMissing: string := "OnSpace AI credentials not configured"

  /** Lines 10-77 up to the fetch: the validation of the profile, then of the
      credentials, then the request that is sent. */
  function ProviderRequestFor(body: map<string, JsValue>, env: Env, showNum: JsNum -> string): (r: Result<ProviderRequest>)
    ensures var p := ProfileOf(body);
      !Truthy(p.cropType) || !Truthy(p.soilType) ==> r == Err(CropSoilRequired)
    ensures var p := ProfileOf(body);
      Truthy(p.cropType) && Truthy(p.soilType) && !(Configured(env.apiKey) && Configured(env.baseUrl))
      ==> r == Err(CredentialsMissing)
    ensures r.Ok? <==>
      Truthy(ProfileOf(body).cropType) && Truthy(ProfileOf(body).soilType)
      && Configured(env.apiKey) && Configured(env.baseUrl)
    ensures r.Ok? ==>
      && r.value.url == env.baseUrl.value + "/chat/completions"
      && r.value.authorization == "Bearer " + env.apiKey.value
      && r.value.prompt == PromptValuesOf(ProfileOf(body), showNum)
  {
    var p := ProfileOf(body);
    if !Truthy(p.cropType) || !Truthy(p.soilType) then Err(CropSoilRequired)
    else if !Configured(env.apiKey) || !Configured(env.baseUrl) then Err(CredentialsMissing)
    else Ok(ProviderRequest(
      url := env.baseUrl.value + "/chat/completions",
      authorization := "Bearer " + env.apiKey.value,
      model := "google/gemini-2.5-flash",
      prompt := PromptValuesOf(p, showNum),
      temperature := 0.7,
      maxTokens := 2000))
  }

  /** The response: the CORS preflight answer, the recommendations, or an
      error with status 500. */
  datatype Response<J> = Preflight | Recommended(recommendations: Recommendations<J>) | Failed(error: string) {
    function Status(): nat {
      if Failed? then 500 else 200
    }
  }

  /** The whole handler. `complete` stands for the provider call. */
  function HandleRecommendation<J>(req: Request, env: Env, showNum: JsNum -> string,
                                  complete: ProviderRequest -> Completion,
                                  parse: string -> Option<J>): (resp: Response<J>)
    ensures resp == Preflight <==> req.httpMethod == "OPTIONS"
    ensures resp.Status() == 500 <==> resp.Failed?
    ensures req.httpMethod != "OPTIONS" && req.body.Err? ==> resp == Failed(req.body.message)
    ensures req.httpMethod != "OPTIONS" && req.body.Ok? ==>
      match ProviderRequestFor(req.body.value, env, showNum)
      case Err(m) => resp == Failed(m)
      case Ok(call) =>
        match complete(call)
        case Threw(m) => resp == Failed(m)
        case NotOk(text) => resp == Failed("OnSpace AI error: " + text)
        case Answered(content) => resp == Recommended(Recommend(content, parse))
  {
    if req.httpMethod == "OPTIONS" then Preflight
    else match req.body
      case Err(m) => Failed(m)
      case Ok(body) =>
        match ProviderRequestFor(body, env, showNum)
        case Err(m) => Failed(m)
        case Ok(call) =>
          match complete(call)
          case Threw(m) => Failed(m)
          case NotOk(text) => Failed("OnSpace AI error: " + text)
          case Answered(content) => Recommended(Recommend(content, parse))
  }

  /** A request that fails validation never reaches the provider: the
      response is the same whatever the provider would have answered. */
  lemma NoFetchBeforeValidation<J>(req: Request, env: Env, showNum: JsNum -> string,
                                   complete1: ProviderRequest -> Completion,
                                   complete2: ProviderRequest -> Completion,
                                   parse: string -> Option<J>)
    requires req.body.Ok? && ProviderRequestFor(req.body.value, env, showNum).Err?
    ensures HandleRecommendation(req, env, showNum, complete1, parse)
         == HandleRecommendation(req, env, showNum, complete2, parse)
  {
  }

  /** A missing crop or soil type is reported even when the credentials are
      missing too: the profile is checked first. */
  lemma ProfileCheckedFirst<J>(body: map<string, JsValue>, showNum: JsNum -> string,
                               complete: ProviderRequest -> Completion, parse: string -> Option<J>)
    requires !Truthy(Field(body, "cropType"))
    ensures HandleRecommendation(Request("POST", Ok(body)), Env(None, None), showNum, complete, parse)
         == Failed(CropSoilRequired)
  {
  }
}
