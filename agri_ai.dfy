/** The deterministic advisory engine of the dashboard (src/hooks/useAgriAI.ts):
    absent readings are replaced by fixed defaults, each reading is classified
    against fixed thresholds, and the classification is turned into advice
    text and a three-step action plan in English or Telugu. */
module AgriAI {
  import opened Common
  import opened SmartAgri

  /** The dashboard's languages: English (`'en'`) and Telugu (`'te'`). */
  datatype Language = En | Te

  datatype NutrientStatus = Low | Good | High {
    function Name(): string {
      match this
      case Low => "low"
      case Good => "good"
      case High => "high"
    }
  }

  datatype PhStatus = Acidic | Neutral | Alkaline {
    function Name(): string {
      match this
      case Acidic => "acidic"
      case Neutral => "neutral"
      case Alkaline => "alkaline"
    }
  }

  datatype MoistureStatus = Dry | Optimal | Wet {
    function Name(): string {
      match this
      case Dry => "dry"
      case Optimal => "optimal"
      case Wet => "wet"
    }
  }

  datatype PestRisk = RiskLow | RiskMedium | RiskHigh {
    function Name(): string {
      match this
      case RiskLow => "low"
      case RiskMedium => "medium"
      case RiskHigh => "high"
    }
    function Rank(): nat {
      match this
      case RiskLow => 0
      case RiskMedium => 1
      case RiskHigh => 2
    }
  }

  datatype CropHealth = Healthy | Improving | Stress {
    function Name(): string {
      match this
      case Healthy => "healthy"
      case Improving => "improving"
      case Stress => "stress"
    }
  }

  // ---------------------------------------------------------------------------
  // Defaults and classification

  /** The numbers the engine works with once defaults are in place. */
  datatype Readings = Readings(n: real, p: real, k: real, ph: real, moisture: real, temp: real, ndvi: real)

  const DefaultN: real := 40.0
  const DefaultP: real := 25.0
  const DefaultK: real := 150.0
  const DefaultPh: real := 6.8
  const DefaultMoisture: real := 50.0
  const DefaultTemp: real := 28.0
  const DefaultNdvi: real := 0.5

  /** `data.x ?? default` for every reading the engine uses. Humidity,
      location and timestamp play no part. */
  function WithDefaults(d: SmartAgriData): (r: Readings)
    ensures d.n.Some? ==> r.n == d.n.value
    ensures d.p.Some? ==> r.p == d.p.value
    ensures d.k.Some? ==> r.k == d.k.value
    ensures d.ph.Some? ==> r.ph == d.ph.value
    ensures d.moisture.Some? ==> r.moisture == d.moisture.value
    ensures d.temperature.Some? ==> r.temp == d.temperature.value
    ensures d.ndvi.Some? ==> r.ndvi == d.ndvi.value
    ensures d.n.None? ==> r.n == DefaultN
    ensures d.p.None? ==> r.p == DefaultP
    ensures d.k.None? ==> r.k == DefaultK
    ensures d.ph.None? ==> r.ph == DefaultPh
    ensures d.moisture.None? ==> r.moisture == DefaultMoisture
    ensures d.temperature.None? ==> r.temp == DefaultTemp
    ensures d.ndvi.None? ==> r.ndvi == DefaultNdvi
  {
    Readings(d.n.GetOr(DefaultN), d.p.GetOr(DefaultP), d.k.GetOr(DefaultK), d.ph.GetOr(DefaultPh),
             d.moisture.GetOr(DefaultMoisture), d.temperature.GetOr(DefaultTemp), d.ndvi.GetOr(DefaultNdvi))
  }

  /** The reading of one nutrient. */
  function Level(v: Readings, t: Nutrient): real {
    match t
    case N => v.n
    case P => v.p
    case K => v.k
  }

  /** The inclusive band of good values for each nutrient. */
  function GoodBand(t: Nutrient): (real, real) {
    match t
    case N => (40.0, 60.0)
    case P => (20.0, 40.0)
    case K => (150.0, 250.0)
  }

  /** `v < 40 ? 'low' : v > 60 ? 'high' : 'good'` and the same for P and K. */
  function NutrientStatusOf(t: Nutrient, v: real): (s: NutrientStatus)
    ensures s == Low <==> v < GoodBand(t).0
    ensures s == High <==> v > GoodBand(t).1
    ensures s == Good <==> GoodBand(t).0 <= v <= GoodBand(t).1
  {
    match t
    case N => if v < 40.0 then Low else if v > 60.0 then High else Good
    case P => if v < 20.0 then Low else if v > 40.0 then High else Good
    case K => if v < 150.0 then Low else if v > 250.0 then High else Good
  }

  function PhStatusOf(ph: real): (s: PhStatus)
    ensures s == Acidic <==> ph < 6.0
    ensures s == Alkaline <==> ph > 7.5
    ensures s == Neutral <==> 6.0 <= ph <= 7.5
  {
    if ph < 6.0 then Acidic else if ph > 7.5 then Alkaline else Neutral
  }

  function MoistureStatusOf(moisture: real): (s: MoistureStatus)
    ensures s == Dry <==> moisture < 35.0
    ensures s == Wet <==> moisture > 65.0
    ensures s == Optimal <==> 35.0 <= moisture <= 65.0
  {
    if moisture < 35.0 then Dry else if moisture > 65.0 then Wet else Optimal
  }

  function PestRiskOf(temp: real, moisture: real): (r: PestRisk)
    ensures r == RiskHigh <==> temp > 30.0 && moisture > 60.0
    ensures r == RiskMedium <==> !(temp > 30.0 && moisture > 60.0) && temp > 25.0 && moisture > 50.0
    ensures r == RiskLow <==> !(temp > 25.0 && moisture > 50.0)
  {
    if temp > 30.0 && moisture > 60.0 then RiskHigh
    else if temp > 25.0 && moisture > 50.0 then RiskMedium
    else RiskLow
  }

  function CropHealthOf(ndvi: real): (h: CropHealth)
    ensures h == Healthy <==> ndvi > 0.6
    ensures h == Improving <==> 0.4 < ndvi <= 0.6
    ensures h == Stress <==> ndvi <= 0.4
  {
    if ndvi > 0.6 then Healthy else if ndvi > 0.4 then Improving else Stress
  }

  /** The nutrients among `ts` whose status is low, in the order of `ts`. */
  function LowAmong(ts: seq<Nutrient>, v: Readings): (r: seq<Nutrient>)
    ensures |r| <= |ts|
    ensures forall t :: t in r <==> t in ts && NutrientStatusOf(t, Level(v, t)) == Low
  {
    if ts == [] then []
    else (if NutrientStatusOf(ts[0], Level(v, ts[0])) == Low then [ts[0]] else []) + LowAmong(ts[1..], v)
  }

  /** The low nutrients in the order the advice names them: N, P, K. */
  function LowNutrients(v: Readings): seq<Nutrient> {
    LowAmong([N, P, K], v)
  }

  // ---------------------------------------------------------------------------
  // Wording

  /** The fixed pieces of advice text of one language; `...Open` and
      `...Close` surround a number. */
  datatype Wording = Wording(
    nitrogenLow: string,
    phosphorusLow: string,
    potassiumLow: string,
    nutrientsGood: string,
    soilStatusOpen: string,
    phAcidic: string,
    phAlkaline: string,
    phOptimal: string,
    dryOpen: string,
    dryClose: string,
    wetOpen: string,
    wetClose: string,
    moistOpen: string,
    moistClose: string,
    irrigateNow: string,
    monitorMoisture: string,
    applyFertilizer: string,
    checkGrowth: string,
    inspectPests: string,
    monitorHealth: string)

  const English: Wording := Wording(
    nitrogenLow := "Nitrogen is low. Apply 20 kg urea per acre. ",
    phosphorusLow := "Phosphorus is low. Apply DAP fertilizer. ",
    potassiumLow := "Potassium is low. Apply MOP fertilizer. ",
    nutrientsGood := "Your soil nutrients are at good levels. Continue balanced fertilization.",
    soilStatusOpen := "Soil status: N=",
    phAcidic := "Soil is acidic. Apply lime to raise pH.",
    phAlkaline := "Soil is alkaline. Apply sulfur.",
    phOptimal := "pH is optimal.",
    dryOpen := "Soil is dry (",
    dryClose := "%). Irrigate immediately. Water 3-4 times daily.",
    wetOpen := "Soil is too wet (",
    wetClose := "%). Stop watering. Allow soil to dry.",
    moistOpen := "Soil moisture is good (",
    moistClose := "%). Water 2 times daily as needed.",
    irrigateNow := "Irrigate crops immediately",
    monitorMoisture := "Monitor soil moisture daily",
    applyFertilizer := "Apply recommended fertilizers",
    checkGrowth := "Check crop growth progress",
    inspectPests := "Inspect for pests and apply pesticides if needed",
    monitorHealth := "Monitor crop health daily")

  const Telugu: Wording := Wording(
    nitrogenLow := "నైట్రోజన్ తక్కువగా ఉంది. ఎకరాకు 20 కిలోల యూరియా వేయండి. ",
    phosphorusLow := "భాస్వరం తక్కువగా ఉంది. DAP ఎరువు వేయండి. ",
    potassiumLow := "పొటాషియం తక్కువగా ఉంది. MOP ఎరువు వేయండి. ",
    nutrientsGood := "మీ నేల పోషకాలు సరైన స్థాయిలో ఉన్నాయి. సమతుల్య ఎరువులు కొనసాగించండి.",
    soilStatusOpen := "నేల స్థితి: N=",
    phAcidic := "నేల ఆమ్లంగా ఉంది. సున్నం వేయండి.",
    phAlkaline := "నేల క్షారంగా ఉంది.",
    phOptimal := "pH సరైనది.",
    dryOpen := "నేల పొడిగా ఉంది (",
    dryClose := "%). వెంటనే నీరు పెట్టండి. రోజుకు 3-4 సార్లు నీరు పెట్టండి.",
    wetOpen := "నేల తడిగా ఉంది (",
    wetClose := "%). నీరు పెట్టడం ఆపండి. నేల ఎండిపోనివ్వండి.",
    moistOpen := "నేల తేమ మంచిగా ఉంది (",
    moistClose := "%). రోజుకు 2 సార్లు తేలికగా నీరు పెట్టండి.",
    irrigateNow := "వెంటనే పంటకు నీరు పెట్టండి",
    monitorMoisture := "నేల తేమను తనిఖీ చేయండి",
    applyFertilizer := "అవసరమైన ఎరువులు వేయండి",
    checkGrowth := "పంట పెరుగుదలను పరిశీలించండి",
    inspectPests := "చీడపురుగులు ఉన్నాయా తనిఖీ చేసి మందులు చల్లండి",
    monitorHealth := "పంట ఆరోగ్యాన్ని రోజూ పరిశీలించండి")

  /** The wording of the branch the source takes for `language`. */
  function Words(lang: Language): (w: Wording)
    ensures lang == En ==> w == English
    ensures lang == Te ==> w == Telugu
  {
    if lang == Te then Telugu else English
  }

  function LowClause(w: Wording, t: Nutrient): string {
    match t
    case N => w.nitrogenLow
    case P => w.phosphorusLow
    case K => w.potassiumLow
  }

  /** The concatenated low-nutrient clauses for `ts`, in order. */
  function Clauses(w: Wording, ts: seq<Nutrient>): string {
    if ts == [] then "" else LowClause(w, ts[0]) + Clauses(w, ts[1..])
  }

  function PhClause(w: Wording, s: PhStatus): string {
    match s
    case Acidic => w.phAcidic
    case Alkaline => w.phAlkaline
    case Neutral => w.phOptimal
  }

  /** `<label>N=<n>, P=<p>, K=<k> mg/kg. `, each number shown with toFixed(0). */
  function SoilStatus(w: Wording, v: Readings): string {
    w.soilStatusOpen + ToFixed0(v.n) + ", P=" + ToFixed0(v.p) + ", K=" + ToFixed0(v.k) + " mg/kg. "
  }

  function IrrigationText(w: Wording, s: MoistureStatus, shown: string): string {
    match s
    case Dry => w.dryOpen + shown + w.dryClose
    case Wet => w.wetOpen + shown + w.wetClose
    case Optimal => w.moistOpen + shown + w.moistClose
  }

  // ---------------------------------------------------------------------------
  // The advisory

  /** `AgriAIRecommendations`; the plan is the `two_day_action_plan` array. */
  datatype AgriAIRecommendations = AgriAIRecommendations(
    fertilizerPlan: string,
    soilAdvice: string,
    irrigation: string,
    pestWarning: string,
    cropHealthStatus: string,
    twoDayActionPlan: seq<string>)

  /** One language branch of `generateFallbackRecommendations` (lines 126-152
      for Telugu, 155-181 for English; the two differ only in `w`): the
      fertilizer plan gets one clause per low nutrient, in N, P, K order, and
      falls back to the "good levels" sentence while it is still empty; the
      soil advice is the status line plus the pH clause; the irrigation text
      follows the moisture status; and the plan has three entries. */
  method AdviseIn(w: Wording, v: Readings) returns (r: AgriAIRecommendations)
    ensures Clauses(w, LowNutrients(v)) == "" ==> r.fertilizerPlan == w.nutrientsGood
    ensures Clauses(w, LowNutrients(v)) != "" ==> r.fertilizerPlan == Clauses(w, LowNutrients(v))
    ensures r.soilAdvice == SoilStatus(w, v) + PhClause(w, PhStatusOf(v.ph))
    ensures r.irrigation == IrrigationText(w, MoistureStatusOf(v.moisture), ToFixed0(v.moisture))
    ensures r.pestWarning == PestRiskOf(v.temp, v.moisture).Name()
    ensures r.cropHealthStatus == CropHealthOf(v.ndvi).Name()
    ensures r.twoDayActionPlan == [
      if MoistureStatusOf(v.moisture) == Dry then w.irrigateNow else w.monitorMoisture,
      if LowNutrients(v) != [] then w.applyFertilizer else w.checkGrowth,
      if PestRiskOf(v.temp, v.moisture) == RiskHigh then w.inspectPests else w.monitorHealth]
  {
    var nStatus := NutrientStatusOf(N, v.n);
    var pStatus := NutrientStatusOf(P, v.p);
    var kStatus := NutrientStatusOf(K, v.k);
    var phStatus := PhStatusOf(v.ph);
    var moistureStatus := MoistureStatusOf(v.moisture);
    var pestRisk := PestRiskOf(v.temp, v.moisture);
    var cropHealth := CropHealthOf(v.ndvi);

    var fertilizerPlan := "";
    ghost var lows: seq<Nutrient> := [];
    if nStatus == Low {
      ClausesSnoc(w, lows, N);
      fertilizerPlan := fertilizerPlan + w.nitrogenLow;
      lows := lows + [N];
    }
    if pStatus == Low {
      ClausesSnoc(w, lows, P);
      fertilizerPlan := fertilizerPlan + w.phosphorusLow;
      lows := lows + [P];
    }
    if kStatus == Low {
      ClausesSnoc(w, lows, K);
      fertilizerPlan := fertilizerPlan + w.potassiumLow;
      lows := lows + [K];
    }
    LowNutrientsNPK(v);
    assert lows == LowNutrients(v);
    assert fertilizerPlan == Clauses(w, lows);
    if fertilizerPlan == "" {
      fertilizerPlan := w.nutrientsGood;
    }

    var soilAdvice := SoilStatus(w, v);
    soilAdvice := soilAdvice + PhClause(w, phStatus);

    var irrigation := "";
    if moistureStatus == Dry {
      irrigation := w.dryOpen + ToFixed0(v.moisture) + w.dryClose;
    } else if moistureStatus == Wet {
      irrigation := w.wetOpen + ToFixed0(v.moisture) + w.wetClose;
    } else {
      irrigation := w.moistOpen + ToFixed0(v.moisture) + w.moistClose;
    }

    r := AgriAIRecommendations(
      fertilizerPlan := fertilizerPlan,
      soilAdvice := soilAdvice,
      irrigation := irrigation,
      pestWarning := pestRisk.Name(),
      cropHealthStatus := cropHealth.Name(),
      twoDayActionPlan := [
        if moistureStatus == Dry then w.irrigateNow else w.monitorMoisture,
        if nStatus == Low || pStatus == Low || kStatus == Low then w.applyFertilizer else w.checkGrowth,
        if pestRisk == RiskHigh then w.inspectPests else w.monitorHealth]);
  }

  /** `generateFallbackRecommendations`: defaults first, then the branch of
      the requested language. In both languages the fertilizer plan is never
      empty and is the "good levels" sentence exactly when no nutrient is
      low, and each action-plan entry tells its two cases apart. */
  method GenerateFallbackRecommendations(data: SmartAgriData, language: Language)
    returns (r: AgriAIRecommendations)
    ensures var v := WithDefaults(data);
      && r.pestWarning == PestRiskOf(v.temp, v.moisture).Name()
      && r.cropHealthStatus == CropHealthOf(v.ndvi).Name()
    ensures var v := WithDefaults(data);
      && r.fertilizerPlan != ""
      && (r.fertilizerPlan == Words(language).nutrientsGood <==> LowNutrients(v) == [])
      && (LowNutrients(v) != [] ==> r.fertilizerPlan == Clauses(Words(language), LowNutrients(v)))
    ensures var v := WithDefaults(data);
      r.soilAdvice == SoilStatus(Words(language), v) + PhClause(Words(language), PhStatusOf(v.ph))
    ensures var v := WithDefaults(data);
      r.irrigation == IrrigationText(Words(language), MoistureStatusOf(v.moisture), ToFixed0(v.moisture))
    ensures var v := WithDefaults(data); var w := Words(language);
      r.twoDayActionPlan == [
        if MoistureStatusOf(v.moisture) == Dry then w.irrigateNow else w.monitorMoisture,
        if LowNutrients(v) != [] then w.applyFertilizer else w.checkGrowth,
        if PestRiskOf(v.temp, v.moisture) == RiskHigh then w.inspectPests else w.monitorHealth]
    ensures var v := WithDefaults(data); var w := Words(language);
      && |r.twoDayActionPlan| == 3
      && (r.twoDayActionPlan[0] == w.irrigateNow <==> MoistureStatusOf(v.moisture) == Dry)
      && (r.twoDayActionPlan[1] == w.applyFertilizer <==> LowNutrients(v) != [])
      && (r.twoDayActionPlan[2] == w.inspectPests <==> PestRiskOf(v.temp, v.moisture) == RiskHigh)
  {
    var v := WithDefaults(data);
    FertilizerPlanCases(language, v);
    ActionPhrasesDiffer(language);
    r := AdviseIn(Words(language), v);
  }

  // ---------------------------------------------------------------------------
  // Lemmas about the composition

  /** The low nutrients, case by case, in N, P, K order. */
  lemma LowNutrientsNPK(v: Readings)
    ensures LowNutrients(v) ==
      (if NutrientStatusOf(N, v.n) == Low then [N] else [])
      + (if NutrientStatusOf(P, v.p) == Low then [P] else [])
      + (if NutrientStatusOf(K, v.k) == Low then [K] else [])
  {
    var c := if NutrientStatusOf(K, v.k) == Low then [K] else [];
    assert LowAmong([K], v) == c by { assert [K][1..] == []; }
    assert LowAmong([P, K], v) == (if NutrientStatusOf(P, v.p) == Low then [P] else []) + c by {
      assert [P, K][1..] == [K];
    }
    assert [N, P, K][1..] == [P, K];
  }

  lemma {:induction false} ClausesAppend(w: Wording, a: seq<Nutrient>, b: seq<Nutrient>)
    ensures Clauses(w, a + b) == Clauses(w, a) + Clauses(w, b)
  {
    if a == [] {
      assert a + b == b;
    } else {
      assert (a + b)[1..] == a[1..] + b;
      ClausesAppend(w, a[1..], b);
    }
  }

  /** Appending one more low nutrient appends its clause. */
  lemma ClausesSnoc(w: Wording, ts: seq<Nutrient>, t: Nutrient)
    ensures Clauses(w, ts + [t]) == Clauses(w, ts) + LowClause(w, t)
  {
    ClausesAppend(w, ts, [t]);
    assert [t][1..] == [];
  }

  /** With non-empty clauses, the clauses of some nutrients are empty only
      when there are no nutrients. */
  lemma {:induction false} ClausesEmpty(w: Wording, ts: seq<Nutrient>)
    requires w.nitrogenLow != "" && w.phosphorusLow != "" && w.potassiumLow != ""
    ensures Clauses(w, ts) == "" <==> ts == []
  {
    if ts != [] {
      assert |Clauses(w, ts)| >= |LowClause(w, ts[0])| > 0;
    }
  }

  lemma EnglishFertilizerLengths()
    ensures |English.nitrogenLow| == 44 && |English.phosphorusLow| == 41 && |English.potassiumLow| == 40
    ensures |English.nutrientsGood| == 72
  {
  }

  lemma TeluguFertilizerLengths()
    ensures |Telugu.nitrogenLow| == 56 && |Telugu.phosphorusLow| == 41 && |Telugu.potassiumLow| == 42
    ensures |Telugu.nutrientsGood| == 67
  {
  }

  /** No sum of the three clause lengths (one, two or all three of them)
      equals the length of the "good levels" sentence. */
  predicate PlanLengthsDistinct(w: Wording) {
    var a := |w.nitrogenLow|;
    var b := |w.phosphorusLow|;
    var c := |w.potassiumLow|;
    var g := |w.nutrientsGood|;
    g != a && g != b && g != c && g != a + b && g != a + c && g != b + c && g != a + b + c
  }

  /** Under distinct lengths, a plan made of low-nutrient clauses never reads
      as the "good levels" sentence. */
  lemma LowPlanDiffers(w: Wording, v: Readings)
    requires PlanLengthsDistinct(w)
    requires LowNutrients(v) != []
    ensures Clauses(w, LowNutrients(v)) != w.nutrientsGood
  {
    LowNutrientsNPK(v);
    var a := if NutrientStatusOf(N, v.n) == Low then [N] else [];
    var b := if NutrientStatusOf(P, v.p) == Low then [P] else [];
    var c := if NutrientStatusOf(K, v.k) == Low then [K] else [];
    ClausesAppend(w, a + b, c);
    ClausesAppend(w, a, b);
    assert Clauses(w, []) == "";
    assert Clauses(w, [N]) == w.nitrogenLow by { assert [N][1..] == []; }
    assert Clauses(w, [P]) == w.phosphorusLow by { assert [P][1..] == []; }
    assert Clauses(w, [K]) == w.potassiumLow by { assert [K][1..] == []; }
    assert |Clauses(w, LowNutrients(v))| != |w.nutrientsGood|;
  }

  /** In both languages a plan made of low-nutrient clauses never reads as
      the "good levels" sentence. */
  lemma LowPlanIsNotGoodSentence(lang: Language, v: Readings)
    requires LowNutrients(v) != []
    ensures Clauses(Words(lang), LowNutrients(v)) != Words(lang).nutrientsGood
  {
    EnglishFertilizerLengths();
    TeluguFertilizerLengths();
    assert PlanLengthsDistinct(Words(lang));
    LowPlanDiffers(Words(lang), v);
  }

  /** The two cases of the fertilizer plan in both languages: the clauses are
      empty exactly when no nutrient is low, and then differ from the
      "good levels" sentence, which is not empty either. */
  lemma FertilizerPlanCases(lang: Language, v: Readings)
    ensures Clauses(Words(lang), LowNutrients(v)) == "" <==> LowNutrients(v) == []
    ensures Words(lang).nutrientsGood != ""
    ensures LowNutrients(v) != [] ==> Clauses(Words(lang), LowNutrients(v)) != Words(lang).nutrientsGood
  {
    EnglishFertilizerLengths();
    TeluguFertilizerLengths();
    ClausesEmpty(Words(lang), LowNutrients(v));
    if LowNutrients(v) != [] {
      LowPlanIsNotGoodSentence(lang, v);
    }
  }

  /** The two candidate texts of every action-plan entry are distinct. */
  lemma ActionPhrasesDiffer(lang: Language)
    ensures Words(lang).irrigateNow != Words(lang).monitorMoisture
    ensures Words(lang).applyFertilizer != Words(lang).checkGrowth
    ensures Words(lang).inspectPests != Words(lang).monitorHealth
  {
  }

  /** Each pH status has its own clause, so the soil advice names exactly one. */
  lemma PhClausesDistinct(lang: Language, s1: PhStatus, s2: PhStatus)
    requires s1 != s2
    ensures PhClause(Words(lang), s1) != PhClause(Words(lang), s2)
  {
  }

  lemma IrrigationPhraseLengths()
    ensures |English.dryOpen + English.dryClose| == 61
    ensures |English.wetOpen + English.wetClose| == 54
    ensures |English.moistOpen + English.moistClose| == 57
    ensures |Telugu.dryOpen + Telugu.dryClose| == 75
    ensures |Telugu.wetOpen + Telugu.wetClose| == 59
    ensures |Telugu.moistOpen + Telugu.moistClose| == 63
  {
  }

  /** Each moisture status has its own irrigation text, whatever number is
      shown: the fixed parts of the three texts have different lengths. */
  lemma IrrigationBranchesDistinct(lang: Language, s1: MoistureStatus, s2: MoistureStatus, shown: string)
    requires s1 != s2
    ensures IrrigationText(Words(lang), s1, shown) != IrrigationText(Words(lang), s2, shown)
  {
    IrrigationPhraseLengths();
    assert |IrrigationText(Words(lang), s1, shown)| != |IrrigationText(Words(lang), s2, shown)|;
  }

  /** With no readings at all the defaults classify as: every nutrient good,
      pH neutral, moisture optimal, pest risk low (50 > 50 is false) and crop
      health improving. */
  lemma AllAbsentBaseline(d: SmartAgriData)
    requires d.n.None? && d.p.None? && d.k.None? && d.ph.None?
    requires d.moisture.None? && d.temperature.None? && d.ndvi.None?
    ensures var v := WithDefaults(d);
      && NutrientStatusOf(N, v.n) == Good && NutrientStatusOf(P, v.p) == Good && NutrientStatusOf(K, v.k) == Good
      && LowNutrients(v) == []
      && PhStatusOf(v.ph) == Neutral
      && MoistureStatusOf(v.moisture) == Optimal
      && PestRiskOf(v.temp, v.moisture) == RiskLow
      && CropHealthOf(v.ndvi) == Improving
  {
    LowNutrientsNPK(WithDefaults(d));
  }

  /** Boundary values: the good bands are inclusive at both ends. */
  lemma NitrogenBoundaries()
    ensures NutrientStatusOf(N, 40.0) == Good && NutrientStatusOf(N, 39.999) == Low
    ensures NutrientStatusOf(N, 60.0) == Good && NutrientStatusOf(N, 60.001) == High
    ensures PhStatusOf(6.0) == Neutral && PhStatusOf(7.5) == Neutral
    ensures MoistureStatusOf(35.0) == Optimal && MoistureStatusOf(65.0) == Optimal
  {
  }

  /** Pest risk never decreases when it gets warmer or wetter. */
  lemma PestRiskMonotone(t1: real, m1: real, t2: real, m2: real)
    requires t1 <= t2 && m1 <= m2
    ensures PestRiskOf(t1, m1).Rank() <= PestRiskOf(t2, m2).Rank()
  {
  }

  /** A worked scenario: N=30, P=35, K=200, pH 5.5, moisture 20%, 32 °C,
      NDVI 0.3. Only nitrogen is low, the soil is dry and acidic, pest risk
      is low (the soil is not wet enough for the heat to matter) and the crop
      is under stress; so the action plan irrigates, fertilises and monitors. */
  lemma ScenarioClassified()
    ensures var v := WithDefaults(SmartAgriData(Some(30.0), Some(35.0), Some(200.0), Some(5.5), Some(20.0),
                                                Some(32.0), Some(70.0), Some(0.3), None, None, None));
      && LowNutrients(v) == [N]
      && PhStatusOf(v.ph) == Acidic
      && MoistureStatusOf(v.moisture) == Dry
      && PestRiskOf(v.temp, v.moisture) == RiskLow
      && CropHealthOf(v.ndvi) == Stress
  {
    var v := WithDefaults(SmartAgriData(Some(30.0), Some(35.0), Some(200.0), Some(5.5), Some(20.0),
                                        Some(32.0), Some(70.0), Some(0.3), None, None, None));
    LowNutrientsNPK(v);
  }

  // ---------------------------------------------------------------------------
  // The prompt for the (disabled) external advisor

  function LanguageName(lang: Language): string {
    if lang == Te then "Telugu" else "English"
  }

  /** `${value ?? 'unknown'}`; `show` is JavaScript's number-to-string conversion. */
  function ValueOrUnknown(value: Option<real>, show: real -> string): (s: string)
    ensures value.None? ==> s == "unknown"
    ensures value.Some? ==> s == show(value.value)
  {
    if value.Some? then show(value.value) else "unknown"
  }

  /** The eight readings as the prompt shows them, in template order. */
  function FarmValues(data: SmartAgriData, show: real -> string): (vs: seq<string>)
    ensures |vs| == 8
    ensures vs[0] == ValueOrUnknown(data.n, show) && vs[1] == ValueOrUnknown(data.p, show)
    ensures vs[2] == ValueOrUnknown(data.k, show) && vs[3] == ValueOrUnknown(data.ph, show)
    ensures vs[4] == ValueOrUnknown(data.moisture, show) && vs[5] == ValueOrUnknown(data.temperature, show)
    ensures vs[6] == ValueOrUnknown(data.humidity, show) && vs[7] == ValueOrUnknown(data.ndvi, show)
  {
    [ValueOrUnknown(data.n, show), ValueOrUnknown(data.p, show), ValueOrUnknown(data.k, show),
     ValueOrUnknown(data.ph, show), ValueOrUnknown(data.moisture, show), ValueOrUnknown(data.temperature, show),
     ValueOrUnknown(data.humidity, show), ValueOrUnknown(data.ndvi, show)]
  }

  /** The fixed text of the template of lines 27-53, cut at its ten
      interpolations: segment i + 1 ends with the label of reading i. */
  const AdvisorTemplate: seq<string> := [
    "You are an expert agricultural advisor. Analyze the following farm data and provide recommendations in ",
    " language using simple, farmer-friendly words.\n\nFarm Data:\n- Nitrogen (N): ",
    " mg/kg\n- Phosphorus (P): ",
    " mg/kg\n- Potassium (K): ",
    " mg/kg\n- Soil pH: ",
    "\n- Soil Moisture: ",
    "%\n- Temperature: ",
    "°C\n- Humidity: ",
    "%\n- NDVI (Crop Health): ",
    "\n\nProvide recommendations in JSON format with these fields:\n{\n  \"fertilizer_plan\": \"Simple steps for fertilizer application\",\n  \"soil_advice\": \"Status of N, P, K, and pH with simple advice\",\n  \"irrigation\": \"Water amount, timing, and frequency\",\n  \"pest_warning\": \"low/medium/high risk with explanation\",\n  \"crop_health_status\": \"healthy/improving/stress\",\n  \"two_day_action_plan\": [\"action 1\", \"action 2\", \"action 3\"]\n}\n\nImportant:\n- Use simple sentences\n- ",
    "\n- Be specific with quantities (e.g., \"20 kg urea per acre\" or \"ఎకరాకు 20 కిలోల యూరియా\")\n- Make it practical for farmers"]

  /** The script instruction of line 51. */
  function Instruction(language: Language): string {
    if language == Te then "Write in Telugu script" else "Write in English"
  }

  /** The ten interpolated values: the language name, the eight readings and
      the script instruction. */
  function AdvisorSlots(data: SmartAgriData, language: Language, show: real -> string): (slots: seq<string>)
    ensures |slots| == 10
  {
    [LanguageName(language)] + FarmValues(data, show) + [Instruction(language)]
  }

  /** What a filling of an eleven-segment template with these slots shows:
      it opens by naming the language, every reading stands verbatim right
      after its own label, and the script instruction follows its bullet. */
  predicate ShowsReadings(p: string, segments: seq<string>, data: SmartAgriData, language: Language, show: real -> string)
    requires |segments| == 11
  {
    var slots := AdvisorSlots(data, language, show);
    && ShowsAt(p, segments[0], LanguageName(language), SlotStart(segments, slots, 0))
    && (forall i :: 0 <= i < 8 ==>
          ShowsAt(p, segments[i + 1], FarmValues(data, show)[i], SlotStart(segments, slots, i + 1)))
    && ShowsAt(p, segments[9], Instruction(language), SlotStart(segments, slots, 9))
  }

  lemma FilledShowsReadings(segments: seq<string>, data: SmartAgriData, language: Language, show: real -> string)
    requires |segments| == 11
    ensures ShowsReadings(Fill(segments, AdvisorSlots(data, language, show)), segments, data, language, show)
  {
    var slots := AdvisorSlots(data, language, show);
    FillShowsEvery(segments, slots);
    assert forall i :: 0 <= i < 8 ==> slots[i + 1] == FarmValues(data, show)[i];
  }

  lemma AdvisorTemplateShape()
    ensures |AdvisorTemplate| == 11
  {
  }

  /** The prompt: the template filled with the language, the readings and
      the instruction, each in its place. */
  function AdvisorPrompt(data: SmartAgriData, language: Language, show: real -> string): (p: string)
    ensures |AdvisorTemplate| == 11 && ShowsReadings(p, AdvisorTemplate, data, language, show)
  {
    AdvisorTemplateShape();
    FilledShowsReadings(AdvisorTemplate, data, language, show);
    Fill(AdvisorTemplate, AdvisorSlots(data, language, show))
  }

  /** An absent reading never reaches the number formatter: a snapshot without
      readings shows "unknown" eight times, whatever `show` does. */
  lemma PromptIgnoresFormatterWhenAbsent(data: SmartAgriData, language: Language, show1: real -> string, show2: real -> string)
    requires data.n.None? && data.p.None? && data.k.None? && data.ph.None?
    requires data.moisture.None? && data.temperature.None? && data.humidity.None? && data.ndvi.None?
    ensures FarmValues(data, show1) == seq(8, _ => "unknown")
    ensures AdvisorPrompt(data, language, show1) == AdvisorPrompt(data, language, show2)
  {
    assert FarmValues(data, show1) == FarmValues(data, show2);
  }
}
