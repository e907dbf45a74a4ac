# Smart agriculture dashboard — a verified model of its core

The dashboard shows a farmer's latest soil readings (nitrogen, phosphorus,
potassium, pH, moisture), the weather and the crop's vegetation index (NDVI),
and turns them into plain-language advice in English or Telugu. Its core is:

- the **snapshot assembly** of `useSmartAgriData` (module `SmartAgri`): read
  the latest IoT row, discard it unless nitrogen, phosphorus or temperature is
  strictly positive, fall back to a default location, then ask the weather and
  NDVI providers only for what is still missing and fill in only the gaps;
- the **advisory engine** of `useAgriAI` (module `AgriAI`): substitute
  defaults, classify every reading against fixed thresholds, and compose the
  fertilizer plan, soil advice, irrigation text, pest warning, crop-health
  status and a three-step action plan, in the requested language;
- the **panel classifiers** of `SmartAgriAI.tsx` (module `SmartAgriPanel`):
  the status labels and colour classes the dashboard card shows;
- four **edge functions**: the AI recommendation endpoint
  (`AiRecommendations`: validation, the request to the completion service and
  the extraction of a JSON payload from a fenced block), the NDVI endpoint
  (`SatelliteNdvi`), the raster-averaging satellite-data endpoint
  (`SatelliteData`) and the IoT upload endpoint (`IotUpload`).

`Common` holds what they share: `Option`/`Result`, JavaScript values and
their truthiness, field lookup that reads `undefined` for a missing key, and
`toFixed` rounding modelled on exact reals.

The forms follow the code. Classifications and the edge-function handlers that
only branch are functions. The merged record that the provider callbacks
update in place is a class, `SmartAgri.MergedData`. The handlers that
assign step by step are methods: the advice composer, the upload row builder
and the satellite-data handler. The averaging loop of the satellite-data
endpoint is a method over an array. Each method is proved against a
specification function, and the properties are proved about that function.

All network traffic, the database, environment variables, the clock,
`JSON.parse`, `parseFloat` and the conversion of a number to text are
parameters of the operations that use them.

Three facts about the advisory engine that the model makes explicit:
- the action plan always has exactly three entries, and the third entry is
  the "monitor crop health" phrase whenever pest risk is not high;
- the Telugu alkaline clause gives no sulfur advice, while the English one
  does;
- for N=30, P=35, K=200, pH 5.5, moisture 20 %, 32 °C and NDVI 0.3, pest
  risk is low, because the high and medium risks both need wet soil
  (`AgriAI.ScenarioClassified`).

## Model

| member | source | states |
|---|---|---|
| Common.Field | supabase/functions/iot-upload/index.ts:25-34 | a missing key reads `undefined`, a present one reads its value |
| Common.NatToString | supabase/functions/satellite-ndvi/index.ts:107-111 | the decimal text of a status code is non-empty, all digits and has no leading zero |
| Common.NatToStringRoundTrip | supabase/functions/satellite-ndvi/index.ts:107-111 | reading the digits back gives the number again |
| Common.RoundHalfUp | src/hooks/useAgriAI.ts:133 | the rounded integer lies within half a unit of its argument |
| Common.ToFixed0 | src/hooks/useAgriAI.ts:133 | `toFixed(0)` text: a leading minus exactly for negative values, digits otherwise, more than one character exactly when negative or at least 10 |
| Common.ToFixed0Parses | src/hooks/useAgriAI.ts:162 | the digits of `toFixed(0)` spell the rounded magnitude |
| Common.Fill | src/hooks/useAgriAI.ts:27-53 | a template filled with values is as long as its fixed segments and its values together |
| Common.FillShowsValue | src/hooks/useAgriAI.ts:27-53 | in a filled template each value appears right after the fixed segment before it, at a position fixed by the lengths before it |
| Common.FillShowsEvery | src/hooks/useAgriAI.ts:27-53 | every value of a filled template appears right after its preceding segment |
| Common.ToFixed3Value | supabase/functions/satellite-data/index.ts:112 | `Number(x.toFixed(3))` is within 0.0005 of x and stays in [0, 1] or [-1, 1] when x does |
| SmartAgri.HasValidData | src/hooks/useSmartAgriData.ts:41-45 | a row is valid exactly when it exists and one of nitrogen, phosphorus and temperature is present and strictly positive |
| SmartAgri.InitialSnapshot | src/hooks/useSmartAgriData.ts:47-59 | the location is always present; a timestamp exactly for a valid row; an invalid row leaves every measurement absent |
| SmartAgri.WithWeather | src/hooks/useSmartAgriData.ts:75-80 | only temperature and humidity change, a present one is kept, and a failed reply changes nothing |
| SmartAgri.WithNdvi | src/hooks/useSmartAgriData.ts:92-96 | only the NDVI changes, to the reported one on success; a failed reply changes nothing |
| SmartAgri.ProviderCalls | src/hooks/useSmartAgriData.ts:66-100 | the weather provider is called exactly when temperature or humidity is missing, the NDVI provider exactly when NDVI is missing, both with the snapshot's location, weather first |
| SmartAgri.Merged | src/hooks/useSmartAgriData.ts:66-105 | the merged snapshot differs from the initial one at most in temperature, humidity and NDVI, and equals it when nothing is missing |
| SmartAgri.ResolveCoordinate | src/hooks/useSmartAgriData.ts:56-57 | the stored coordinate is kept only for a valid row with a non-zero coordinate, otherwise the default is used |
| SmartAgri.MergedData.constructor | src/hooks/useSmartAgriData.ts:47-59 | the record built from the stored row is the gated initial snapshot |
| SmartAgri.MergedData.ApplyWeather | src/hooks/useSmartAgriData.ts:75-80 | the weather callback fills temperature and humidity only where null and only on a successful reply |
| SmartAgri.MergedData.ApplyNdvi | src/hooks/useSmartAgriData.ts:92-96 | the NDVI callback sets the NDVI only on a successful reply |
| SmartAgri.FetchSmartAgriData | src/hooks/useSmartAgriData.ts:26-106 | the result is the merge of the gated row with the provider replies; exactly the needed providers are called; the log holds exactly the store error (other than "no rows") and each rejected provider that was called |
| SmartAgri.GateReadsOnlyNPTemperature | src/hooks/useSmartAgriData.ts:41-45 | rows that agree on nitrogen, phosphorus and temperature get the same validity verdict |
| SmartAgri.InvalidRowDiscarded | src/hooks/useSmartAgriData.ts:47-59 | a row that fails the gate yields all measurements absent, no timestamp and the default location |
| SmartAgri.ValidRowCopied | src/hooks/useSmartAgriData.ts:47-55 | a row that passes the gate is copied field by field, nulls and zeros included |
| SmartAgri.CoordinatesResolved | src/hooks/useSmartAgriData.ts:56-64 | latitude and longitude are always present, and a non-default one comes from a valid row |
| SmartAgri.ProviderPhasePreserves | src/hooks/useSmartAgriData.ts:66-105 | the providers change only temperature, humidity and NDVI |
| SmartAgri.StoredValuesWin | src/hooks/useSmartAgriData.ts:77-78 | a stored temperature, humidity or NDVI is never overwritten |
| SmartAgri.FailedProvidersChangeNothing | src/hooks/useSmartAgriData.ts:75-97 | providers that reject, err or report failure leave the snapshot unchanged |
| SmartAgri.WeatherFillsMissing | src/hooks/useSmartAgriData.ts:70-84 | a successful weather reply fills every null temperature and humidity |
| SmartAgri.NdviFillsMissing | src/hooks/useSmartAgriData.ts:87-100 | a successful NDVI reply is used exactly when the row had no NDVI |
| SmartAgri.CallbacksCommute | src/hooks/useSmartAgriData.ts:103 | the two callbacks give the same record in either order of settlement |
| AgriAI.WithDefaults | src/hooks/useAgriAI.ts:105-111 | each present reading is kept and each absent one takes its documented default |
| AgriAI.NutrientStatusOf | src/hooks/useAgriAI.ts:114-116 | low below the band, high above it, good inside it with both ends included |
| AgriAI.PhStatusOf | src/hooks/useAgriAI.ts:117 | acidic below 6.0, alkaline above 7.5, neutral in between, each case an if-and-only-if |
| AgriAI.MoistureStatusOf | src/hooks/useAgriAI.ts:118 | dry below 35, wet above 65, optimal in between |
| AgriAI.PestRiskOf | src/hooks/useAgriAI.ts:121 | high exactly when hot and wet, medium exactly when warm and damp but not both hot and wet, low otherwise |
| AgriAI.CropHealthOf | src/hooks/useAgriAI.ts:124 | healthy above 0.6, improving in (0.4, 0.6], stress at 0.4 or below |
| AgriAI.LowAmong | src/hooks/useAgriAI.ts:127-130 | a nutrient is listed exactly when it is among those examined and its status is low |
| AgriAI.LowNutrientsNPK | src/hooks/useAgriAI.ts:127-130 | the low nutrients are listed in N, P, K order, one case per combination |
| AgriAI.Words | src/hooks/useAgriAI.ts:126 | Telugu is chosen exactly for `te`, English otherwise |
| AgriAI.AdviseIn | src/hooks/useAgriAI.ts:126-181 | one language branch: the fertilizer clauses of the low nutrients or the "good levels" sentence, the soil status with its pH clause, the irrigation text of the moisture band, the pest and health labels, and the action plan chosen by moisture, low nutrients and pest risk |
| AgriAI.GenerateFallbackRecommendations | src/hooks/useAgriAI.ts:100-182 | defaults then the branch of the language; the plan is never empty and is the "good levels" sentence exactly when no nutrient is low; each action entry takes its first phrase exactly in its triggering case |
| AgriAI.ClausesAppend | src/hooks/useAgriAI.ts:127-130 | the fertilizer plan of two lists of nutrients is the concatenation of their plans |
| AgriAI.ClausesEmpty | src/hooks/useAgriAI.ts:131 | the accumulated plan is empty exactly when no nutrient is low |
| AgriAI.LowPlanIsNotGoodSentence | src/hooks/useAgriAI.ts:156-160 | when a nutrient is low the plan can never read as the "good levels" sentence, in either language |
| AgriAI.FertilizerPlanCases | src/hooks/useAgriAI.ts:127-131 | the plan is empty exactly when no nutrient is low, and then the non-empty "good levels" sentence replaces it |
| AgriAI.ActionPhrasesDiffer | src/hooks/useAgriAI.ts:176-180 | the two phrases of each action-plan entry differ in both languages |
| AgriAI.PhClausesDistinct | src/hooks/useAgriAI.ts:163 | the three pH clauses are pairwise different in both languages |
| AgriAI.IrrigationBranchesDistinct | src/hooks/useAgriAI.ts:165-168 | the dry, wet and optimal irrigation texts differ whatever the shown moisture |
| AgriAI.AllAbsentBaseline | src/hooks/useAgriAI.ts:105-124 | with no readings every nutrient is good, pH neutral, moisture optimal, pest risk low and health improving |
| AgriAI.NitrogenBoundaries | src/hooks/useAgriAI.ts:114-118 | the good bands include their end points |
| AgriAI.PestRiskMonotone | src/hooks/useAgriAI.ts:121 | pest risk never drops as temperature or moisture rises |
| AgriAI.ScenarioClassified | src/hooks/useAgriAI.ts:105-124 | the worked scenario: only nitrogen low, acidic, dry, pest risk low, crop under stress |
| AgriAI.ValueOrUnknown | src/hooks/useAgriAI.ts:30-37 | an absent reading is shown as "unknown", a present one through the number formatter |
| AgriAI.FarmValues | src/hooks/useAgriAI.ts:30-37 | the eight readings shown, in the prompt's order N, P, K, pH, moisture, temperature, humidity, NDVI, each as "unknown" or formatted |
| AgriAI.FilledShowsReadings | src/hooks/useAgriAI.ts:27-53 | any eleven-segment template filled with the slots shows the language, each reading and the instruction right after their labels |
| AgriAI.AdvisorPrompt | src/hooks/useAgriAI.ts:27-53 | the advisor prompt shows the language name, each of the eight readings after its label, and the instruction for the language |
| AgriAI.PromptIgnoresFormatterWhenAbsent | src/hooks/useAgriAI.ts:27-53 | with no readings every slot says "unknown" and the prompt does not depend on number formatting |
| SmartAgriPanel.NutrientCell | src/components/dashboard/SmartAgriAI.tsx:94 | no snapshot reads `undefined`, a null reading reads null, a present one its value |
| SmartAgriPanel.GetStatusColor | src/components/dashboard/SmartAgriAI.tsx:14-19 | grey exactly for null, green exactly inside a given optimal range, red exactly outside [min, max] otherwise, yellow for the rest including `undefined` |
| SmartAgriPanel.NutrientDotColor | src/components/dashboard/SmartAgriAI.tsx:107 | grey exactly for a null reading, red exactly outside [0, 300], yellow for `undefined` and inside |
| SmartAgriPanel.NutrientDotNeverGreen | src/components/dashboard/SmartAgriAI.tsx:107 | the dot, drawn without an optimal range, is never green and is red exactly outside [0, 300] |
| SmartAgriPanel.GetNPKStatus | src/components/dashboard/SmartAgriAI.tsx:21-34 | unknown exactly for null, low below, high above, good inside or for `undefined` |
| SmartAgriPanel.NoSnapshotReadsGood | src/components/dashboard/SmartAgriAI.tsx:94-96 | with no snapshot a nutrient card says "good" with a green border |
| SmartAgriPanel.GetPHStatus | src/components/dashboard/SmartAgriAI.tsx:36-41 | unknown, acidic, alkaline and good, each as an if-and-only-if of the reading |
| SmartAgriPanel.GetMoistureStatus | src/components/dashboard/SmartAgriAI.tsx:43-48 | unknown, dry, wet and normal, each as an if-and-only-if of the reading |
| SmartAgriPanel.GetHealthColor | src/components/dashboard/SmartAgriAI.tsx:50-54 | green exactly for healthy, yellow exactly for improving, red for anything else |
| SmartAgriPanel.GetPestRiskColor | src/components/dashboard/SmartAgriAI.tsx:56-60 | green exactly for low, yellow exactly for medium, red for anything else |
| SmartAgriPanel.NpkBorderColor | src/components/dashboard/SmartAgriAI.tsx:96 | green exactly for good, red exactly for low, yellow otherwise |
| SmartAgriPanel.ClassifiersMatchEngine | src/components/dashboard/SmartAgriAI.tsx:21-48 | on a present reading the panel's labels agree with the advisory engine's thresholds, up to the names of the middle bands |
| SmartAgriPanel.EngineCategoriesColoured | src/components/dashboard/SmartAgriAI.tsx:50-60 | every pest risk and health status the engine produces gets its own colour |
| AiRecommendations.CloseFrom | supabase/functions/ai-recommendations/index.ts:91-92 | the first closing fence at or after a position, or none at all |
| AiRecommendations.MatchFrom | supabase/functions/ai-recommendations/index.ts:91-92 | the leftmost opening fence that has a closing fence after it, paired with the first closing fence (lazy match) |
| AiRecommendations.Capture | supabase/functions/ai-recommendations/index.ts:91-92 | a capture exists exactly when a fenced block matches |
| AiRecommendations.CaptureShorter | supabase/functions/ai-recommendations/index.ts:91-92 | a captured payload is shorter than the text by at least both fences |
| AiRecommendations.CaptureHasNoClose | supabase/functions/ai-recommendations/index.ts:91-92 | a captured payload never contains a closing fence |
| AiRecommendations.Candidate | supabase/functions/ai-recommendations/index.ts:91-94 | the `json` fence capture if there is one, else the plain fence capture, else the whole text; never longer than the text |
| AiRecommendations.CandidateIsWholeTextIffNoFence | supabase/functions/ai-recommendations/index.ts:91-93 | the whole text is parsed exactly when neither fence pattern matches |
| AiRecommendations.FencedPayloadExtracted | supabase/functions/ai-recommendations/index.ts:91-94 | a payload wrapped in a `json` fence is extracted unchanged |
| AiRecommendations.Recommend | supabase/functions/ai-recommendations/index.ts:88-102 | the structured answer exactly when the content is text whose candidate parses, otherwise the raw response with the parse-failure note |
| AiRecommendations.OnlyCandidateParsed | supabase/functions/ai-recommendations/index.ts:91-94 | the outcome depends on the parser only through the extracted candidate |
| AiRecommendations.OrDefault | supabase/functions/ai-recommendations/index.ts:27-28 | a falsy value is replaced by its default, a truthy one is shown |
| AiRecommendations.ConsultantFill | supabase/functions/ai-recommendations/index.ts:23-58 | the consultant prompt shows crop, soil, area and season, each right after its label (`ConsultantPrompt` is this fill with the fixed opening and closing text) |
| AiRecommendations.PromptShowsProfile | supabase/functions/ai-recommendations/index.ts:25-28 | the prompt shows crop and soil as given, and area and season or their defaults |
| AiRecommendations.ProviderRequestFor | supabase/functions/ai-recommendations/index.ts:10-77 | crop and soil are checked before the credentials; a request is made exactly when both checks pass, to the configured URL with the bearer key |
| AiRecommendations.HandleRecommendation | supabase/functions/ai-recommendations/index.ts:3-126 | preflight exactly for OPTIONS; every error becomes status 500 with its message; a non-ok completion is prefixed "OnSpace AI error: "; an answer becomes the extracted recommendations |
| AiRecommendations.NoFetchBeforeValidation | supabase/functions/ai-recommendations/index.ts:12-21 | a request that fails validation never depends on the completion service |
| AiRecommendations.ProfileCheckedFirst | supabase/functions/ai-recommendations/index.ts:12-20 | a missing crop type is reported even when the credentials are missing too |
| SatelliteNdvi.ValidSamples | supabase/functions/satellite-ndvi/index.ts:123-125 | exactly the finite samples within [-1, 1] are kept, each as many times as it occurs |
| SatelliteNdvi.AverageNdvi | supabase/functions/satellite-ndvi/index.ts:117-134 | the mean of the valid samples, which lies in [-1, 1], and 0.5 when there are none |
| SatelliteNdvi.Normalize | supabase/functions/satellite-ndvi/index.ts:137 | the result lies in [0, 1] and is the linear map of any value in [-1, 1] |
| SatelliteNdvi.NormalizedAverage | supabase/functions/satellite-ndvi/index.ts:117-137 | the clamp never bites on an average, and a reply without samples reads 0.75 |
| SatelliteNdvi.BoundingBox | supabase/functions/satellite-ndvi/index.ts:35-41 | the box is 0.01 wide and high and centred on the point |
| SatelliteNdvi.HandleNdvi | supabase/functions/satellite-ndvi/index.ts:8-165 | preflight exactly for OPTIONS; an unreadable body gives the fallback with its own message; missing or zero coordinates and every failure give the fallback NDVI 0.5; a reply gives the normalised, rounded average in [0, 1] |
| SatelliteNdvi.ZeroCoordinateRefused | supabase/functions/satellite-ndvi/index.ts:14-18 | a point with latitude 0 is refused as missing |
| SatelliteData.InsideSamples | supabase/functions/satellite-data/index.ts:101-106 | exactly the finite samples strictly inside (-1, 1) are kept, each as many times as it occurs |
| SatelliteData.OpenAverage | supabase/functions/satellite-data/index.ts:108 | 0 without inside samples, otherwise strictly inside (-1, 1) |
| SatelliteData.OpenAverageIsMean | supabase/functions/satellite-data/index.ts:99-108 | the average times the count is the sum of the inside samples |
| SatelliteData.AverageNdvi | supabase/functions/satellite-data/index.ts:98-108 | the running sum and count over the raster give the average of the inside samples |
| SatelliteData.OutsideSamplesIgnored | supabase/functions/satellite-data/index.ts:102 | a sample on or beyond a bound, NaN or infinite, does not move the average |
| SatelliteData.RoundingReachesTheBound | supabase/functions/satellite-data/index.ts:112 | the reported value can reach the bound 1 although the mean is strict |
| SatelliteData.DataResponse.Status | supabase/functions/satellite-data/index.ts:122-127 | status 500 exactly for an error |
| SatelliteData.HandleSatelliteData | supabase/functions/satellite-data/index.ts:3-128 | preflight exactly for OPTIONS; a missing box, missing credentials and every thrown error become the error response; a raster yields its rounded average, within [-1, 1], with the current time |
| IotUpload.ReadingFromSnoc | supabase/functions/iot-upload/index.ts:25-34 | one more examined key is one more conditional assignment |
| IotUpload.ReadingFrom | supabase/functions/iot-upload/index.ts:25-34 | every column set is one of the examined keys, provided, and holds the parsed field |
| IotUpload.ReadingOf | supabase/functions/iot-upload/index.ts:22-34 | every column of the row is one of the ten, provided in the body, and holds the parsed field |
| IotUpload.BuildReading | supabase/functions/iot-upload/index.ts:22-34 | the ten conditional assignments build the row `ReadingOf` gives |
| IotUpload.ReadingKeysExactly | supabase/functions/iot-upload/index.ts:25-34 | a column is set exactly when it is one of the ten and provided, and it holds the parsed field |
| IotUpload.ExtraFieldIgnored | supabase/functions/iot-upload/index.ts:22-34 | adding an unknown or unprovided field to the body does not change the row |
| IotUpload.EmptyBodyEmptyRow | supabase/functions/iot-upload/index.ts:22-34 | a body with none of the ten fields gives an empty row |
| IotUpload.UploadResponse.Status | supabase/functions/iot-upload/index.ts:46-67 | status 400 exactly for a rejection |
| IotUpload.HandleUpload | supabase/functions/iot-upload/index.ts:9-69 | preflight exactly for OPTIONS; a bad or null body and a failed insert are rejected with their message; otherwise the built row is inserted and the inserted data returned |

## Left out

- I/O of every kind: the database, the weather, NDVI and SentinelHub
  services and the completion service are parameters whose outcome is given;
  the CORS headers and the JSON encoding of responses are not modelled.
- The react-query wrappers of the hooks (caching, query keys, refetching),
  and the `No data available` guard at src/hooks/useAgriAI.ts:21-22, which
  belongs to that wrapper.
- The completion call commented out at src/hooks/useAgriAI.ts:61-86; the
  prompt it would send is modelled (`AgriAI.AdvisorPrompt`).
- The two language branches of `generateFallbackRecommendations` are one
  composer, `AgriAI.AdviseIn`, over a table of the phrases of each language.
- `Promise.all` runs the two provider callbacks one after the other; their
  independence of order is a lemma (`SmartAgri.CallbacksCommute`).
- The clock: the NDVI date range of satellite-ndvi (lines 44-45) and the
  satellite-data timestamp, which is a parameter.
- The fixed parts of the provider requests (time ranges, collections, cloud
  filter, raster size, evalscript) and the weather-data edge function, which
  is not part of this model.
- `createClient` and the environment lookups of iot-upload (lines 16-18).
- `JSON.parse`, `parseFloat` and the formatting of numbers as text are
  parameters; the exact text of a `TypeError` is a constant.
- Non-numeric coordinates reaching the NDVI endpoint, and non-numeric
  entries (such as `null`, which `isNaN` lets through as 0) in the NDVI
  sample array: samples are numbers.
- Common.ToFixed0: models rounding on exact reals, not the binary
  double-precision ties of JavaScript's `toFixed`, nor the exponent form
  (such as "1e+21") that `toFixed` returns for magnitudes of 1e21 and more.
- Common.ToFixed3Value: same rounding caveat on three decimals.
- SatelliteData.OpenAverage: the mean is computed on exact reals; the
  single-precision samples and the double-precision running sum are not
  modelled.
- SatelliteData.AverageNdvi: the raster is given as decoded samples; the
  byte-length check of the `Float32Array` constructor (a `RangeError` for a
  length that is not a multiple of 4) is not modelled.
- SatelliteNdvi.AverageNdvi: reals rather than doubles, as above.
