/** The display-side classifiers of the Smart Agriculture AI panel
    (src/components/dashboard/SmartAgriAI.tsx): threshold functions that turn
    a reading into a status label or a colour class, with an explicit
    "unknown" (or grey) for a missing reading. */
module SmartAgriPanel {
  import opened Common
  import opened SmartAgri
  import opened AgriAI

  /** A reading as the panel receives it. The nutrient cells read
      `agriData?.[key]`, which is `undefined` while there is no snapshot;
      the stored and merged values themselves are numbers or `null`. */
  datatype Cell = NoSnapshot | NullReading | Reading(x: real)

  /** The value the panel reads for a nutrient (line 94). */
  function NutrientCell(agriData: Option<SmartAgriData>, t: Nutrient): (c: Cell)
    ensures agriData.None? ==> c == NoSnapshot
    ensures agriData.Some? ==> (c.NullReading? <==> Stored(agriData.value, t).None?)
    ensures agriData.Some? && Stored(agriData.value, t).Some? ==> c == Reading(Stored(agriData.value, t).value)
  {
    match agriData
    case None => NoSnapshot
    case Some(d) =>
      match Stored(d, t)
      case None => NullReading
      case Some(x) => Reading(x)
  }

  /** The snapshot's reading of one nutrient. */
  function Stored(d: SmartAgriData, t: Nutrient): Option<real> {
    match t
    case N => d.n
    case P => d.p
    case K => d.k
  }

  /** An inclusive range, the optional `optimal` argument of `getStatusColor`. */
  datatype Range = Range(min: real, max: real)

  /** `getStatusColor`: grey for `null`; green when an optimal range is given
      and holds the value (this is checked first); red outside `[min, max]`;
      yellow otherwise. An `undefined` value fails every comparison and so
      comes out yellow. */
  function GetStatusColor(value: Cell, min: real, max: real, optimal: Option<Range>): (c: string)
    ensures c == "bg-gray-500" <==> value.NullReading?
    ensures c == "bg-green-500" <==>
      value.Reading? && optimal.Some? && optimal.value.min <= value.x <= optimal.value.max
    ensures c == "bg-red-500" <==>
      value.Reading? && !(optimal.Some? && optimal.value.min <= value.x <= optimal.value.max)
      && (value.x < min || value.x > max)
    ensures c == "bg-yellow-500" <==>
      value.NoSnapshot?
      || (value.Reading? && !(optimal.Some? && optimal.value.min <= value.x <= optimal.value.max)
          && min <= value.x <= max)
  {
    if value.NullReading? then "bg-gray-500"
    else if optimal.Some? && value.Reading? && value.x >= optimal.value.min && value.x <= optimal.value.max then "bg-green-500"
    else if value.Reading? && (value.x < min || value.x > max) then "bg-red-500"
    else "bg-yellow-500"
  }

  /** The dot next to each nutrient (line 107): `getStatusColor(value, 0, 300)`. */
  function NutrientDotColor(value: Cell): (c: string)
    ensures c == "bg-gray-500" <==> value.NullReading?
    ensures c == "bg-red-500" <==> value.Reading? && (value.x < 0.0 || value.x > 300.0)
    ensures c == "bg-yellow-500" <==> value.NoSnapshot? || (value.Reading? && 0.0 <= value.x <= 300.0)
  {
    GetStatusColor(value, 0.0, 300.0, None)
  }

  /** Without an optimal range the dot is never green: a present reading is
      red outside [0, 300] and yellow inside. */
  lemma NutrientDotNeverGreen(value: Cell)
    ensures NutrientDotColor(value) != "bg-green-500"
    ensures value.Reading? ==> (NutrientDotColor(value) == "bg-red-500" <==> value.x < 0.0 || value.x > 300.0)
  {
  }

  /** The `ranges` table of `getNPKStatus`. */
  function NpkRange(t: Nutrient): Range {
    match t
    case N => Range(40.0, 60.0)
    case P => Range(20.0, 40.0)
    case K => Range(150.0, 250.0)
  }

  /** `getNPKStatus`: "unknown" for `null`, "low" below the range, "high"
      above it, "good" inside (both ends inclusive). An `undefined` value
      fails both comparisons and reads as "good". */
  function GetNPKStatus(value: Cell, t: Nutrient): (s: string)
    ensures s == "unknown" <==> value.NullReading?
    ensures s == "low" <==> value.Reading? && value.x < NpkRange(t).min
    ensures s == "high" <==> value.Reading? && value.x > NpkRange(t).max
    ensures s == "good" <==> value.NoSnapshot? || (value.Reading? && NpkRange(t).min <= value.x <= NpkRange(t).max)
  {
    if value.NullReading? then "unknown"
    else if value.Reading? && value.x < NpkRange(t).min then "low"
    else if value.Reading? && value.x > NpkRange(t).max then "high"
    else "good"
  }

  /** While there is no snapshot every nutrient card says "good" and has a
      green border rather than "unknown". */
  lemma NoSnapshotReadsGood(t: Nutrient)
    ensures GetNPKStatus(NutrientCell(None, t), t) == "good"
    ensures NpkBorderColor(GetNPKStatus(NutrientCell(None, t), t)) == "border-green-500"
  {
  }

  /** `getPHStatus`, called with `agriData?.ph ?? null`. */
  function GetPHStatus(ph: Option<real>): (s: string)
    ensures s == "unknown" <==> ph.None?
    ensures s == "acidic" <==> ph.Some? && ph.value < 6.0
    ensures s == "alkaline" <==> ph.Some? && ph.value > 7.5
    ensures s == "good" <==> ph.Some? && 6.0 <= ph.value <= 7.5
  {
    if ph.None? then "unknown"
    else if ph.value < 6.0 then "acidic"
    else if ph.value > 7.5 then "alkaline"
    else "good"
  }

  /** `getMoistureStatus`, called with `agriData?.moisture ?? null`. */
  function GetMoistureStatus(moisture: Option<real>): (s: string)
    ensures s == "unknown" <==> moisture.None?
    ensures s == "dry" <==> moisture.Some? && moisture.value < 35.0
    ensures s == "wet" <==> moisture.Some? && moisture.value > 65.0
    ensures s == "normal" <==> moisture.Some? && 35.0 <= moisture.value <= 65.0
  {
    if moisture.None? then "unknown"
    else if moisture.value < 35.0 then "dry"
    else if moisture.value > 65.0 then "wet"
    else "normal"
  }

  /** `getHealthColor`: green for "healthy", yellow for "improving", red for
      anything else. */
  function GetHealthColor(status: string): (c: string)
    ensures c == "text-green-600 bg-green-50 border-green-200" <==> status == "healthy"
    ensures c == "text-yellow-600 bg-yellow-50 border-yellow-200" <==> status == "improving"
    ensures c == "text-red-600 bg-red-50 border-red-200" <==> status != "healthy" && status != "improving"
  {
    if status == "healthy" then "text-green-600 bg-green-50 border-green-200"
    else if status == "improving" then "text-yellow-600 bg-yellow-50 border-yellow-200"
    else "text-red-600 bg-red-50 border-red-200"
  }

  /** `getPestRiskColor`: green for "low", yellow for "medium", red for
      anything else. */
  function GetPestRiskColor(risk: string): (c: string)
    ensures c == "bg-green-100 text-green-800 border-green-300" <==> risk == "low"
    ensures c == "bg-yellow-100 text-yellow-800 border-yellow-300" <==> risk == "medium"
    ensures c == "bg-red-100 text-red-800 border-red-300" <==> risk != "low" && risk != "medium"
  {
    if risk == "low" then "bg-green-100 text-green-800 border-green-300"
    else if risk == "medium" then "bg-yellow-100 text-yellow-800 border-yellow-300"
    else "bg-red-100 text-red-800 border-red-300"
  }

  /** The border of a nutrient card (line 96): green for "good", red for
      "low", yellow for anything else ("high" and "unknown"). */
  function NpkBorderColor(status: string): (c: string)
    ensures c == "border-green-500" <==> status == "good"
    ensures c == "border-red-500" <==> status == "low"
    ensures c == "border-yellow-500" <==> status != "good" && status != "low"
  {
    if status == "good" then "border-green-500"
    else if status == "low" then "border-red-500"
    else "border-yellow-500"
  }

  // ---------------------------------------------------------------------------
  // Agreement with the advisory engine

  /** On a present reading the panel's classifiers draw the advisory
      engine's lines: the nutrient labels coincide, and the pH and moisture
      labels differ only in naming the middle band "good" and "normal"
      where the engine says "neutral" and "optimal". */
  lemma ClassifiersMatchEngine(x: real, t: Nutrient)
    ensures GetNPKStatus(Reading(x), t) == NutrientStatusOf(t, x).Name()
    ensures GetPHStatus(Some(x)) == (if PhStatusOf(x) == Neutral then "good" else PhStatusOf(x).Name())
    ensures GetMoistureStatus(Some(x)) ==
      (if MoistureStatusOf(x) == Optimal then "normal" else MoistureStatusOf(x).Name())
  {
    assert NpkRange(t).min == GoodBand(t).0 && NpkRange(t).max == GoodBand(t).1;
  }

  /** The advisory's categories map onto distinct colours: every pest risk
      and every crop-health status the engine produces gets its own class. */
  lemma EngineCategoriesColoured(r: PestRisk, h: CropHealth)
    ensures GetPestRiskColor(r.Name()) ==
      match r
      case RiskLow => "bg-green-100 text-green-800 border-green-300"
      case RiskMedium => "bg-yellow-100 text-yellow-800 border-yellow-300"
      case RiskHigh => "bg-red-100 text-red-800 border-red-300"
    ensures GetHealthColor(h.Name()) ==
      match h
      case Healthy => "text-green-600 bg-green-50 border-green-200"
      case Improving => "text-yellow-600 bg-yellow-50 border-yellow-200"
      case Stress => "text-red-600 bg-red-50 border-red-200"
  {
  }
}
