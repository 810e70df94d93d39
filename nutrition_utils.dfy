/**
 * The nutrition calculation pipeline: age, basal metabolic rate (Mifflin-St Jeor),
 * total daily energy expenditure, the goal-based calorie adjustment and the split
 * of the adjusted calories into grams of protein, fat and carbohydrate.
 *
 * Floating-point arithmetic is modelled over `real`, so every value is the exact
 * value before Python's `round`.  The current date is a parameter.
 */
module NutritionUtils {
  import opened Wrappers

  /** A calendar date, compared field by field as the source does. */
  datatype Date = Date(year: int, month: int, day: int)

  /**
   * The profile fields the pipeline reads.  A decimal column that is NULL is `None`;
   * the choice fields are free text because the source falls back on unknown values.
   */
  datatype Profile = Profile(
    pesoActual: Option<real>,
    altura: Option<real>,
    fechaNacimiento: Option<Date>,
    genero: string,
    nivelActividad: string,
    objetivo: string)

  /** Python truthiness of a nullable decimal: NULL and zero are both false. */
  predicate Present(x: Option<real>) {
    x.Some? && x.value != 0.0
  }

  /** The value of a nullable decimal, with a false value read as 0. */
  function OrZero(x: Option<real>): real {
    if Present(x) then x.value else 0.0
  }

  // ---------------------------------------------------------------- age

  /** Calendar order on dates: `d1` is on or before `d2`. */
  predicate OnOrBefore(d1: Date, d2: Date) {
    d1.year < d2.year
    || (d1.year == d2.year && (d1.month < d2.month || (d1.month == d2.month && d1.day <= d2.day)))
  }

  /** The `n`-th anniversary of a birth date. */
  function Anniversary(birth: Date, n: int): Date {
    Date(birth.year + n, birth.month, birth.day)
  }

  /** The age assumed when the profile has no birth date. */
  const DefaultAge := 30

  /**
   * Age in completed years on `today`; without a birth date the default age.
   * The contract characterises the age independently of the formula: the
   * `age`-th anniversary has been reached and the next one has not.
   */
  function Age(birth: Option<Date>, today: Date): (age: int)
    ensures birth.None? ==> age == DefaultAge
    ensures birth.Some? ==> OnOrBefore(Anniversary(birth.value, age), today)
    ensures birth.Some? ==> !OnOrBefore(Anniversary(birth.value, age + 1), today)
  {
    if birth.Some? then
      var b := birth.value;
      var years := today.year - b.year;
      if today.month < b.month || (today.month == b.month && today.day < b.day) then years - 1 else years
    else
      DefaultAge
  }

  /** Reaching an anniversary is monotone: a later anniversary reached implies every earlier one. */
  lemma {:induction false} AnniversaryMonotone(birth: Date, today: Date, m: int, n: int)
    requires m <= n
    requires OnOrBefore(Anniversary(birth, n), today)
    ensures OnOrBefore(Anniversary(birth, m), today)
  {
  }

  /** The completed-years characterisation in `Age` determines the age uniquely. */
  lemma {:induction false} AgeIsUnique(birth: Date, today: Date, n: int)
    requires OnOrBefore(Anniversary(birth, n), today)
    requires !OnOrBefore(Anniversary(birth, n + 1), today)
    ensures n == Age(Some(birth), today)
  {
    var a := Age(Some(birth), today);
    if n < a {
      AnniversaryMonotone(birth, today, n + 1, a);
    } else if a < n {
      AnniversaryMonotone(birth, today, a + 1, n);
    }
  }

  // ---------------------------------------------------------------- BMR

  const Masculino := "masculino"
  const Femenino := "femenino"

  /** Mifflin-St Jeor without its sex-specific constant: weight in kg, height in cm, age in years. */
  function MifflinStJeor(peso: real, altura: real, edad: int): real {
    10.0 * peso + 6.25 * altura - 5.0 * (edad as real)
  }

  /** The constant added for each gender: +5 for men, -161 for women, -78 for any other value. */
  function GenderConstant(genero: string): real {
    if genero == Masculino then 5.0 else if genero == Femenino then -161.0 else -78.0
  }

  /** Basal metabolic rate; a missing or zero weight or height counts as 0. */
  function Bmr(p: Profile, today: Date): real {
    MifflinStJeor(OrZero(p.pesoActual), OrZero(p.altura), Age(p.fechaNacimiento, today)) + GenderConstant(p.genero)
  }

  /** The three gender constants: men sit 166 above women and 83 above any other gender. */
  lemma BmrGenderOffsets(p: Profile, today: Date, other: string)
    requires other != Masculino && other != Femenino
    ensures Bmr(p.(genero := Masculino), today) - Bmr(p.(genero := Femenino), today) == 166.0
    ensures Bmr(p.(genero := Masculino), today) - Bmr(p.(genero := other), today) == 83.0
    ensures Bmr(p.(genero := other), today) - Bmr(p.(genero := Femenino), today) == 83.0
  {
  }

  /** A NULL weight or height gives the same BMR as an explicit zero. */
  lemma BmrMissingMeasuresCountAsZero(p: Profile, today: Date)
    ensures Bmr(p.(pesoActual := None), today) == Bmr(p.(pesoActual := Some(0.0)), today)
    ensures Bmr(p.(altura := None), today) == Bmr(p.(altura := Some(0.0)), today)
  {
  }

  /** Each extra kilogram of weight adds 10 kcal, each extra centimetre of height 6.25 kcal. */
  lemma BmrSlopes(p: Profile, today: Date, w: real, h: real)
    requires w != 0.0 && w + 1.0 != 0.0 && h != 0.0 && h + 1.0 != 0.0
    ensures Bmr(p.(pesoActual := Some(w + 1.0)), today) == Bmr(p.(pesoActual := Some(w)), today) + 10.0
    ensures Bmr(p.(altura := Some(h + 1.0)), today) == Bmr(p.(altura := Some(h)), today) + 6.25
  {
  }

  /** The reference profiles: 80 kg, 180 cm, 30 years, male gives 1780; 60 kg, 165 cm, 25 years, female gives 1345.25. */
  lemma BmrReferenceValues()
    ensures Bmr(Profile(Some(80.0), Some(180.0), Some(Date(1995, 1, 1)), Masculino, "sedentario", "mantenimiento"), Date(2025, 6, 1)) == 1780.0
    ensures Bmr(Profile(Some(60.0), Some(165.0), Some(Date(2000, 1, 1)), Femenino, "muy_activo", "perdida_peso"), Date(2025, 6, 1)) == 1345.25
  {
  }

  // ---------------------------------------------------------------- TDEE

  /** Activity levels in increasing order of activity, with their multipliers. */
  const ActivityLevels: seq<string> := ["sedentario", "ligero", "moderado", "activo", "muy_activo"]
  const ActivityFactors: map<string, real> :=
    map["sedentario" := 1.2, "ligero" := 1.375, "moderado" := 1.55, "activo" := 1.725, "muy_activo" := 1.9]
  const DefaultActivityFactor := 1.2

  /** The multiplier of an activity level; an unknown level uses the sedentary factor. */
  function ActivityFactor(nivel: string): (f: real)
    ensures DefaultActivityFactor <= f <= 1.9
    ensures nivel !in ActivityLevels ==> f == DefaultActivityFactor
  {
    if nivel in ActivityFactors then ActivityFactors[nivel] else DefaultActivityFactor
  }

  /** A more active level always has a strictly larger multiplier. */
  lemma ActivityFactorIncreasing(i: int, j: int)
    requires 0 <= i < j < |ActivityLevels|
    ensures ActivityFactor(ActivityLevels[i]) < ActivityFactor(ActivityLevels[j])
  {
  }

  /** Total daily energy expenditure: BMR scaled by the activity multiplier. */
  function Tdee(bmr: real, nivel: string): (tdee: real)
    ensures tdee == bmr * ActivityFactor(nivel)
    ensures bmr >= 0.0 ==> 1.2 * bmr <= tdee <= 1.9 * bmr
    ensures nivel !in ActivityLevels ==> tdee == 1.2 * bmr
  {
    bmr * (if nivel in ActivityFactors then ActivityFactors[nivel] else DefaultActivityFactor)
  }

  /** 1780 kcal at the sedentary level gives 2136 kcal. */
  lemma TdeeReferenceValue()
    ensures Tdee(1780.0, "sedentario") == 2136.0
  {
  }

  // ---------------------------------------------------------------- goal adjustment

  const PerdidaPeso := "perdida_peso"
  const Mantenimiento := "mantenimiento"
  const GananciaMuscular := "ganancia_muscular"

  /** Calories for the goal: a 20% deficit, no change, or a 10% surplus; an unknown goal keeps the TDEE. */
  function AdjustCalories(tdee: real, objetivo: string): (cal: real)
    ensures objetivo == PerdidaPeso ==> cal == 0.8 * tdee
    ensures objetivo == GananciaMuscular ==> cal == 1.1 * tdee
    ensures objetivo != PerdidaPeso && objetivo != GananciaMuscular ==> cal == tdee
    ensures tdee >= 0.0 ==> 0.8 * tdee <= cal <= 1.1 * tdee
    ensures tdee < 0.0 ==> 1.1 * tdee <= cal <= 0.8 * tdee
  {
    var ajustes := map[PerdidaPeso := tdee * 0.8, Mantenimiento := tdee, GananciaMuscular := tdee * 1.1];
    if objetivo in ajustes then ajustes[objetivo] else tdee
  }

  /** For a positive TDEE the goals order the calories: loss below maintenance below gain. */
  lemma AdjustCaloriesOrdersGoals(tdee: real)
    requires tdee > 0.0
    ensures AdjustCalories(tdee, PerdidaPeso) < AdjustCalories(tdee, Mantenimiento) < AdjustCalories(tdee, GananciaMuscular)
    ensures AdjustCalories(tdee, PerdidaPeso) == 0.8 * tdee && AdjustCalories(tdee, GananciaMuscular) == 1.1 * tdee
  {
  }

  /** 2500 kcal with the weight-loss goal gives 2000 kcal. */
  lemma AdjustCaloriesReferenceValue()
    ensures AdjustCalories(2500.0, PerdidaPeso) == 2000.0
  {
  }

  // ---------------------------------------------------------------- macronutrients

  /** Energy per gram: protein and carbohydrate 4 kcal, fat 9 kcal. */
  const KcalPerGramProtein := 4.0
  const KcalPerGramCarbs := 4.0
  const KcalPerGramFat := 9.0

  /** Shares of the calories given to each macronutrient. */
  datatype Ratios = Ratios(proteina: real, grasas: real, carbohidratos: real)

  /** Grams of each macronutrient, before rounding to one decimal. */
  datatype Macros = Macros(proteinas: real, grasas: real, carbohidratos: real)

  /** The shares for a goal; every goal other than loss and gain uses the maintenance shares. */
  function MacroRatios(objetivo: string): (r: Ratios)
    ensures r.proteina + r.grasas + r.carbohidratos == 1.0
    ensures r.proteina > 0.0 && r.grasas > 0.0 && r.carbohidratos > 0.0
  {
    if objetivo == PerdidaPeso then Ratios(0.35, 0.25, 0.40)
    else if objetivo == GananciaMuscular then Ratios(0.30, 0.25, 0.45)
    else Ratios(0.25, 0.25, 0.50)
  }

  /**
   * Grams of protein, fat and carbohydrate for a calorie target.  The grams give
   * back each macronutrient's share of the calories and together all of them.
   */
  function DistributeMacros(calorias: real, objetivo: string): (m: Macros)
    ensures KcalPerGramProtein * m.proteinas == calorias * MacroRatios(objetivo).proteina
    ensures KcalPerGramFat * m.grasas == calorias * MacroRatios(objetivo).grasas
    ensures KcalPerGramCarbs * m.carbohidratos == calorias * MacroRatios(objetivo).carbohidratos
    ensures KcalPerGramProtein * m.proteinas + KcalPerGramCarbs * m.carbohidratos + KcalPerGramFat * m.grasas == calorias
    ensures calorias >= 0.0 ==> m.proteinas >= 0.0 && m.grasas >= 0.0 && m.carbohidratos >= 0.0
  {
    var r := MacroRatios(objetivo);
    Macros((calorias * r.proteina) / KcalPerGramProtein,
           (calorias * r.grasas) / KcalPerGramFat,
           (calorias * r.carbohidratos) / KcalPerGramCarbs)
  }

  /** 3000 kcal for muscle gain: 225 g protein, 337.5 g carbohydrate and 250/3 (about 83.3) g fat. */
  lemma DistributeMacrosReferenceValue()
    ensures DistributeMacros(3000.0, GananciaMuscular) == Macros(225.0, 250.0 / 3.0, 337.5)
  {
  }

  // ---------------------------------------------------------------- whole pipeline

  const MissingMeasuresError := "Se requiere peso y altura para calcular macros"
  const SuccessMessage := "Cálculo completado exitosamente"

  /** The dictionary the pipeline returns; `error` and `message` are keys that may be absent. */
  datatype MacroReport = MacroReport(
    error: Option<string>,
    caloriasDiarias: real,
    proteinas: real,
    carbohidratos: real,
    grasas: real,
    bmr: real,
    tdee: real,
    message: Option<string>)

  /**
   * All nutritional values for a profile.  Without a weight or a height the report
   * carries an error and zeros; otherwise each stage feeds the next:
   * BMR, then TDEE, then the adjusted calories, then their split into grams.
   */
  function MacrosForProfile(p: Profile, today: Date): (r: MacroReport)
    ensures r.error.Some? <==> !Present(p.pesoActual) || !Present(p.altura)
    ensures r.error.Some? ==>
      && r.error.value == MissingMeasuresError && r.message.None?
      && r.caloriasDiarias == 0.0 && r.proteinas == 0.0 && r.carbohidratos == 0.0
      && r.grasas == 0.0 && r.bmr == 0.0 && r.tdee == 0.0
    ensures r.error.None? ==>
      && r.message == Some(SuccessMessage)
      && r.bmr == Bmr(p, today)
      && r.tdee == Tdee(r.bmr, p.nivelActividad)
      && r.caloriasDiarias == AdjustCalories(r.tdee, p.objetivo)
      && Macros(r.proteinas, r.grasas, r.carbohidratos) == DistributeMacros(r.caloriasDiarias, p.objetivo)
  {
    if !Present(p.pesoActual) || !Present(p.altura) then
      MacroReport(Some(MissingMeasuresError), 0.0, 0.0, 0.0, 0.0, 0.0, 0.0, None)
    else
      var bmr := Bmr(p, today);
      var tdee := Tdee(bmr, p.nivelActividad);
      var calorias := AdjustCalories(tdee, p.objetivo);
      var macros := DistributeMacros(calorias, p.objetivo);
      MacroReport(None, calorias, macros.proteinas, macros.carbohidratos, macros.grasas, bmr, tdee, Some(SuccessMessage))
  }

  /**
   * Nothing bounds the measures from below: a 1 kg, 1 cm man of 100 gets a
   * successful report whose BMR, TDEE and daily calories are all negative.
   */
  lemma NegativeEnergyReachable()
    ensures var p := Profile(Some(1.0), Some(1.0), Some(Date(1924, 1, 1)), Masculino, "sedentario", Mantenimiento);
      var r := MacrosForProfile(p, Date(2024, 6, 1));
      && r.error.None? && r.bmr == -478.75 && r.tdee < 0.0 && r.caloriasDiarias < 0.0
  {
    var p := Profile(Some(1.0), Some(1.0), Some(Date(1924, 1, 1)), Masculino, "sedentario", Mantenimiento);
    assert Age(p.fechaNacimiento, Date(2024, 6, 1)) == 100;
  }

  /** A successful report is energy-consistent: its grams add back up to its daily calories. */
  lemma ReportIsEnergyConsistent(p: Profile, today: Date)
    requires MacrosForProfile(p, today).error.None?
    ensures var r := MacrosForProfile(p, today);
      KcalPerGramProtein * r.proteinas + KcalPerGramCarbs * r.carbohidratos + KcalPerGramFat * r.grasas == r.caloriasDiarias
  {
  }
}
