/**
 * Total daily energy expenditure (TDEE) by the Mifflin-St Jeor equation:
 * the basal metabolic rate (BMR) scaled by a fixed activity factor.
 */
module Energy {
  import opened Wrappers

  /** The five activity levels the calculator offers, least to most active. */
  datatype ActivityLevel =
    | Sedentary
    | LightlyActive
    | ModeratelyActive
    | VeryActive
    | ExtremelyActive

  /** The label the user interface shows for each level, and the key of the factor table. */
  function Label(a: ActivityLevel): string
  {
    match a
    case Sedentary => "Sedentário"
    case LightlyActive => "Levemente ativo"
    case ModeratelyActive => "Moderadamente ativo"
    case VeryActive => "Muito ativo"
    case ExtremelyActive => "Extremamente ativo"
  }

  /** Position of a level in the order of increasing activity. */
  function Rank(a: ActivityLevel): nat
  {
    match a
    case Sedentary => 0
    case LightlyActive => 1
    case ModeratelyActive => 2
    case VeryActive => 3
    case ExtremelyActive => 4
  }

  /** The multiplier applied to the BMR for each level. */
  function Factor(a: ActivityLevel): (f: real)
    ensures 1.2 <= f <= 1.9
  {
    match a
    case Sedentary => 1.2
    case LightlyActive => 1.375
    case ModeratelyActive => 1.55
    case VeryActive => 1.725
    case ExtremelyActive => 1.9
  }

  /** The factor dictionary exactly as the calculator declares it, keyed by label. */
  const FactorTable: map<string, real> := map[
    "Sedentário" := 1.2,
    "Levemente ativo" := 1.375,
    "Moderadamente ativo" := 1.55,
    "Muito ativo" := 1.725,
    "Extremamente ativo" := 1.9
  ]

  /** The one sex value that selects the male constant; every other value selects the female one. */
  const MaleLabel: string := "Masculino"

  /** The sex-specific constant of the Mifflin-St Jeor equation. */
  function SexConstant(sexo: string): (c: real)
    ensures sexo == MaleLabel <==> c == 5.0
    ensures sexo != MaleLabel <==> c == -161.0
  {
    if sexo == MaleLabel then 5.0 else -161.0
  }

  /** Basal metabolic rate in kcal/day from weight (kg), height (cm), age (years) and sex. */
  function Bmr(peso: real, altura: real, idade: int, sexo: string): real
  {
    10.0 * peso + 6.25 * altura - 5.0 * (idade as real) + SexConstant(sexo)
  }

  /**
   * TDEE for a known activity level: what the calculator's dictionary lookup
   * returns for that level's label.
   */
  function Tdee(peso: real, altura: real, idade: int, sexo: string, a: ActivityLevel): (r: real)
    ensures TdeeByLabel(peso, altura, idade, sexo, Label(a)) == Some(r)
  {
    LabelsAreTableKeys();
    Bmr(peso, altura, idade, sexo) * Factor(a)
  }

  /**
   * TDEE as the calculator computes it, looking the level's label up in the
   * factor dictionary; an unknown label is a failed lookup (None).
   */
  function TdeeByLabel(peso: real, altura: real, idade: int, sexo: string, nivel: string): (r: Option<real>)
    ensures r.Some? <==> exists a :: Label(a) == nivel
  {
    LabelsAreTableKeys();
    if nivel in FactorTable then Some(Bmr(peso, altura, idade, sexo) * FactorTable[nivel]) else None
  }

  /** The dictionary holds exactly the five labels, each with the factor of its level. */
  lemma LabelsAreTableKeys()
    ensures forall a :: Label(a) in FactorTable && FactorTable[Label(a)] == Factor(a)
    ensures forall s :: s in FactorTable <==> exists a :: Label(a) == s
  {
    forall s | s in FactorTable ensures exists a :: Label(a) == s {
      if s == "Sedentário" { assert Label(Sedentary) == s; }
      else if s == "Levemente ativo" { assert Label(LightlyActive) == s; }
      else if s == "Moderadamente ativo" { assert Label(ModeratelyActive) == s; }
      else if s == "Muito ativo" { assert Label(VeryActive) == s; }
      else { assert Label(ExtremelyActive) == s; }
    }
  }

  /** Distinct levels have distinct labels, so a label names exactly one level. */
  lemma LabelInjective(a: ActivityLevel, b: ActivityLevel)
    ensures Label(a) == Label(b) <==> a == b
  {
  }

  /** The factors grow strictly with the level's activity rank. */
  lemma FactorOrdered(a: ActivityLevel, b: ActivityLevel)
    ensures Rank(a) < Rank(b) <==> Factor(a) < Factor(b)
    ensures Rank(a) == Rank(b) <==> a == b
  {
  }

  /** Every factor in the table is one of the five fixed values. */
  lemma FactorIsOneOfFive(a: ActivityLevel)
    ensures Factor(a) in {1.2, 1.375, 1.55, 1.725, 1.9}
  {
  }

  /**
   * The Mifflin-St Jeor coefficients, read off the BMR: 10 kcal per kg,
   * 6.25 kcal per cm, -5 kcal per year, and a male BMR 166 kcal above the
   * female one; a zero-everything man has a BMR of 5 kcal.
   */
  lemma BmrCoefficients(peso: real, altura: real, idade: int, sexo: string, dp: real, dh: real, di: int)
    ensures Bmr(peso + dp, altura, idade, sexo) - Bmr(peso, altura, idade, sexo) == 10.0 * dp
    ensures Bmr(peso, altura + dh, idade, sexo) - Bmr(peso, altura, idade, sexo) == 6.25 * dh
    ensures Bmr(peso, altura, idade + di, sexo) - Bmr(peso, altura, idade, sexo) == -5.0 * (di as real)
    ensures sexo != MaleLabel ==> Bmr(peso, altura, idade, MaleLabel) - Bmr(peso, altura, idade, sexo) == 166.0
    ensures Bmr(0.0, 0.0, 0, MaleLabel) == 5.0
  {
    assert SexConstant(MaleLabel) == 5.0;
  }

  /** The female TDEE is the male TDEE less 166 times the activity factor. */
  lemma FemaleTdeeIsMaleMinus166(peso: real, altura: real, idade: int, sexo: string, a: ActivityLevel)
    requires sexo != MaleLabel
    ensures Tdee(peso, altura, idade, sexo, a) == Tdee(peso, altura, idade, MaleLabel, a) - 166.0 * Factor(a)
  {
    var f := Factor(a);
    var core := 10.0 * peso + 6.25 * altura - 5.0 * (idade as real);
    calc {
      Tdee(peso, altura, idade, sexo, a);
      (core - 161.0) * f;
      (core + 5.0) * f - 166.0 * f;
      Tdee(peso, altura, idade, MaleLabel, a) - 166.0 * f;
    }
  }

  /** Scaling by a positive factor keeps a strict order. */
  lemma ScalePositive(x: real, y: real, f: real)
    requires x < y && f > 0.0
    ensures x * f < y * f
  {
    assert y * f - x * f == (y - x) * f;
  }

  /** With sex and level fixed, TDEE is strictly increasing in weight. */
  lemma TdeeIncreasingInWeight(p1: real, p2: real, altura: real, idade: int, sexo: string, a: ActivityLevel)
    requires p1 < p2
    ensures Tdee(p1, altura, idade, sexo, a) < Tdee(p2, altura, idade, sexo, a)
  {
    ScalePositive(Bmr(p1, altura, idade, sexo), Bmr(p2, altura, idade, sexo), Factor(a));
  }

  /** With sex and level fixed, TDEE is strictly increasing in height. */
  lemma TdeeIncreasingInHeight(peso: real, h1: real, h2: real, idade: int, sexo: string, a: ActivityLevel)
    requires h1 < h2
    ensures Tdee(peso, h1, idade, sexo, a) < Tdee(peso, h2, idade, sexo, a)
  {
    ScalePositive(Bmr(peso, h1, idade, sexo), Bmr(peso, h2, idade, sexo), Factor(a));
  }

  /** With sex and level fixed, TDEE is strictly decreasing in age. */
  lemma TdeeDecreasingInAge(peso: real, altura: real, i1: int, i2: int, sexo: string, a: ActivityLevel)
    requires i1 < i2
    ensures Tdee(peso, altura, i2, sexo, a) < Tdee(peso, altura, i1, sexo, a)
  {
    ScalePositive(Bmr(peso, altura, i2, sexo), Bmr(peso, altura, i1, sexo), Factor(a));
  }

  /** For a positive BMR, a more active level never gives a lower TDEE. */
  lemma TdeeMonotoneInLevel(peso: real, altura: real, idade: int, sexo: string, a: ActivityLevel, b: ActivityLevel)
    requires Bmr(peso, altura, idade, sexo) > 0.0
    requires Rank(a) <= Rank(b)
    ensures Tdee(peso, altura, idade, sexo, a) <= Tdee(peso, altura, idade, sexo, b)
  {
    FactorOrdered(a, b);
    if Rank(a) < Rank(b) {
      ScalePositive(Factor(a), Factor(b), Bmr(peso, altura, idade, sexo));
    }
  }

  /** The ranges the calculator's input widgets allow. */
  predicate InWidgetRanges(peso: real, altura: real, idade: int)
  {
    30.0 <= peso <= 200.0 && 100.0 <= altura <= 250.0 && 10 <= idade <= 120
  }

  /** Inside the widget ranges the BMR is at least 164 kcal, so the TDEE is positive. */
  lemma TdeePositiveInWidgetRanges(peso: real, altura: real, idade: int, sexo: string, a: ActivityLevel)
    requires InWidgetRanges(peso, altura, idade)
    ensures Bmr(peso, altura, idade, sexo) >= 164.0
    ensures Tdee(peso, altura, idade, sexo, a) >= 164.0 * 1.2
  {
    var b := Bmr(peso, altura, idade, sexo);
    assert b * Factor(a) - 164.0 * 1.2 == (b - 164.0) * Factor(a) + 164.0 * (Factor(a) - 1.2);
  }

  /** A 70 kg, 170 cm, 30-year-old sedentary man needs 1941 kcal a day. */
  lemma WorkedExample()
    ensures Bmr(70.0, 170.0, 30, MaleLabel) == 1617.5
    ensures Tdee(70.0, 170.0, 30, MaleLabel, Sedentary) == 1941.0
  {
    assert SexConstant(MaleLabel) == 5.0;
  }
}
