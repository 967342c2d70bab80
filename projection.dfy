/**
 * The weight-loss projection: how many weeks a caloric deficit needs to take
 * the user from the current weight to the target, the week-by-week series of
 * projected weights, and the recommended daily intake.
 */
module Projection {
  import opened Wrappers
  import opened Series
  import Energy

  /** Energy content of one kilogram of body weight, in kcal. */
  const KcalPerKg: real := 7700.0

  /** The one failure the projection can raise: dividing by a zero weekly deficit. */
  datatype Error = ZeroDivisionError

  /**
   * The projection: week indices (the chart's x values), projected weights
   * (its y values), and the fractional number of weeks needed.
   */
  datatype Plan = Plan(semanas: seq<int>, pesos: seq<real>, semanasNecessarias: real)

  /** The daily deficit: the share of the TDEE that the recommended intake withholds. */
  function DailyDeficit(deficit: int, tdee: real): (d: real)
    ensures d == tdee - CaloriasNecessarias(tdee, deficit)
    ensures deficit > 0 && tdee > 0.0 ==> d > 0.0
  {
    (deficit as real / 100.0) * tdee
  }

  /** The weekly caloric deficit in kcal: seven daily deficits. */
  function WeeklyDeficit(deficit: int, tdee: real): (w: real)
    ensures w == 0.0 <==> deficit == 0 || tdee == 0.0
    ensures deficit > 0 && tdee > 0.0 ==> w > 0.0
  {
    var w := DailyDeficit(deficit, tdee) * 7.0;
    assert w == (deficit as real) * tdee * 0.07;
    w
  }

  /**
   * The fractional number of weeks needed: the weight to lose, in kcal,
   * divided by the weekly deficit.
   */
  function WeeksNeeded(pesoAtual: real, pesoAlvo: real, deficit: int, tdee: real): (w: real)
    requires WeeklyDeficit(deficit, tdee) != 0.0
    ensures w * WeeklyDeficit(deficit, tdee) == (pesoAtual - pesoAlvo) * KcalPerKg
  {
    (pesoAtual - pesoAlvo) * KcalPerKg / WeeklyDeficit(deficit, tdee)
  }

  /** A plan's weeks are consecutive from 0, and it has one weight per week. */
  predicate WellFormed(p: Plan)
  {
    && |p.semanas| == |p.pesos|
    && forall i :: 0 <= i < |p.semanas| ==> p.semanas[i] == i
  }

  /**
   * The projection as the calculator builds it: the weeks needed, the week
   * list `np.arange(0, weeks + 1)`, and as many weights, evenly spaced from
   * the current weight to the target. A zero weekly deficit raises a division
   * by zero.
   */
  function CalcularEvolucaoPeso(pesoAtual: real, pesoAlvo: real, deficit: int, tdee: real): (r: Result<Plan, Error>)
    ensures r.Failure? <==> deficit == 0 || tdee == 0.0
    ensures r.Success? ==>
      var p := r.value;
      && WellFormed(p)
      && p.semanasNecessarias * WeeklyDeficit(deficit, tdee) == (pesoAtual - pesoAlvo) * KcalPerKg
      && (forall k: int :: k in p.semanas <==> 0 <= k && (k as real) < p.semanasNecessarias + 1.0)
      && (|p.pesos| >= 1 ==> p.pesos[0] == pesoAtual)
      && (|p.pesos| >= 2 ==> p.pesos[|p.pesos| - 1] == pesoAlvo)
      && (|p.pesos| >= 2 ==> EvenlySpaced(p.pesos, (pesoAlvo - pesoAtual) / ((|p.pesos| - 1) as real)))
  {
    if WeeklyDeficit(deficit, tdee) == 0.0 then
      Failure(ZeroDivisionError)
    else
      var semanasNecessarias := WeeksNeeded(pesoAtual, pesoAlvo, deficit, tdee);
      var semanas := Arange(semanasNecessarias + 1.0);
      var pesos := Linspace(pesoAtual, pesoAlvo, |semanas|);
      assert |semanas| >= 2 ==> EvenlySpaced(pesos, Step(pesoAtual, pesoAlvo, |semanas|)) by {
        if |semanas| >= 2 {
          LinspaceEvenlySpaced(pesoAtual, pesoAlvo, |semanas|);
        }
      }
      Success(Plan(semanas, pesos, semanasNecessarias))
  }

  /** Signs of a product, kept out of the solver's nonlinear reasoning. */
  lemma ProductSigns(x: real, y: real)
    ensures x >= 0.0 && y >= 0.0 ==> x * y >= 0.0
    ensures x > 0.0 && y > 0.0 ==> x * y > 0.0
  {
  }

  /** The recommended daily intake: the TDEE less the chosen percentage of it. */
  function CaloriasNecessarias(tdee: real, deficit: int): (c: real)
    ensures c == tdee * (1.0 - deficit as real / 100.0)
    ensures deficit > 0 && tdee > 0.0 ==> c < tdee
    ensures 0 <= deficit <= 100 && tdee >= 0.0 ==> 0.0 <= c <= tdee
  {
    var share := deficit as real / 100.0;
    assert tdee * (1.0 - share) == tdee - share * tdee;
    ProductSigns(share, tdee);
    ProductSigns(1.0 - share, tdee);
    tdee - share * tdee
  }

  /** No time is needed when the target is the current weight, and only then. */
  lemma WeeksNeededZeroIffAtTarget(pesoAtual: real, pesoAlvo: real, deficit: int, tdee: real)
    requires WeeklyDeficit(deficit, tdee) != 0.0
    ensures WeeksNeeded(pesoAtual, pesoAlvo, deficit, tdee) == 0.0 <==> pesoAtual == pesoAlvo
  {
    var w := WeeksNeeded(pesoAtual, pesoAlvo, deficit, tdee);
    var d := WeeklyDeficit(deficit, tdee);
    if w == 0.0 {
      assert w * d == 0.0;
    }
  }

  /** With a real deficit, losing weight takes a positive time and gaining would take a negative one. */
  lemma WeeksNeededSign(pesoAtual: real, pesoAlvo: real, deficit: int, tdee: real)
    requires deficit > 0 && tdee > 0.0
    ensures pesoAlvo < pesoAtual ==> WeeksNeeded(pesoAtual, pesoAlvo, deficit, tdee) > 0.0
    ensures pesoAlvo > pesoAtual ==> WeeksNeeded(pesoAtual, pesoAlvo, deficit, tdee) < 0.0
  {
    var w := WeeksNeeded(pesoAtual, pesoAlvo, deficit, tdee);
    var d := WeeklyDeficit(deficit, tdee);
    assert d > 0.0;
    assert w <= 0.0 ==> w * d <= 0.0;
    assert w >= 0.0 ==> w * d >= 0.0;
  }

  /**
   * For a non-negative duration the week list is 0, 1, ..., ceil(weeks):
   * ceil(weeks) + 1 consecutive integers, so at least one point, and the last
   * one falls at or after the computed duration but less than a week later.
   */
  lemma WeekListShape(semanasNecessarias: real)
    requires semanasNecessarias >= 0.0
    ensures |Arange(semanasNecessarias + 1.0)| == Ceil(semanasNecessarias) + 1 >= 1
    ensures
      var last := Arange(semanasNecessarias + 1.0)[Ceil(semanasNecessarias)];
      semanasNecessarias <= last as real < semanasNecessarias + 1.0
  {
    ArangeLength(semanasNecessarias + 1.0);
    CeilShift(semanasNecessarias, 1);
  }

  /** The week list is strictly increasing. */
  lemma WeekListIncreasing(stop: real, i: int, j: int)
    requires 0 <= i < j < |Arange(stop)|
    ensures Arange(stop)[i] < Arange(stop)[j]
  {
  }

  /**
   * When the target is not above the current weight (and the deficit is real),
   * the projection succeeds with a non-negative duration w and ceil(w) + 1
   * points, ending at the target (at the current weight when there is one point).
   */
  lemma ProjectionShape(pesoAtual: real, pesoAlvo: real, deficit: int, tdee: real)
    requires pesoAlvo <= pesoAtual
    requires deficit > 0 && tdee > 0.0
    ensures CalcularEvolucaoPeso(pesoAtual, pesoAlvo, deficit, tdee).Success?
    ensures
      var p := CalcularEvolucaoPeso(pesoAtual, pesoAlvo, deficit, tdee).value;
      && p.semanasNecessarias >= 0.0
      && |p.pesos| == Ceil(p.semanasNecessarias) + 1
      && p.pesos[|p.pesos| - 1] == (if |p.pesos| == 1 then pesoAtual else pesoAlvo)
  {
    var w := WeeksNeeded(pesoAtual, pesoAlvo, deficit, tdee);
    WeeksNeededSign(pesoAtual, pesoAlvo, deficit, tdee);
    WeeksNeededZeroIffAtTarget(pesoAtual, pesoAlvo, deficit, tdee);
    WeekListShape(w);
  }

  /**
   * When the target is not above the current weight, the projected weights
   * never rise and all lie between the target and the current weight.
   */
  lemma ProjectionDescends(pesoAtual: real, pesoAlvo: real, deficit: int, tdee: real)
    requires pesoAlvo <= pesoAtual
    requires deficit > 0 && tdee > 0.0
    ensures CalcularEvolucaoPeso(pesoAtual, pesoAlvo, deficit, tdee).Success?
    ensures
      var ps := CalcularEvolucaoPeso(pesoAtual, pesoAlvo, deficit, tdee).value.pesos;
      && (forall i, j :: 0 <= i <= j < |ps| ==> ps[j] <= ps[i])
      && (forall i :: 0 <= i < |ps| ==> pesoAlvo <= ps[i] <= pesoAtual)
  {
    var ps := CalcularEvolucaoPeso(pesoAtual, pesoAlvo, deficit, tdee).value.pesos;
    var n := |ps|;
    assert ps == Linspace(pesoAtual, pesoAlvo, n);
    forall i, j | 0 <= i <= j < n ensures ps[j] <= ps[i] {
      LinspaceNonIncreasing(pesoAtual, pesoAlvo, n, i, j);
    }
    forall i | 0 <= i < n ensures pesoAlvo <= ps[i] <= pesoAtual {
      LinspaceBounds(pesoAtual, pesoAlvo, n, i);
    }
  }

  /** At the target already: zero weeks, and the single point (week 0, current weight). */
  lemma ProjectionAtTarget(peso: real, deficit: int, tdee: real)
    requires deficit > 0 && tdee > 0.0
    ensures CalcularEvolucaoPeso(peso, peso, deficit, tdee) == Success(Plan([0], [peso], 0.0))
  {
    WeeksNeededZeroIffAtTarget(peso, peso, deficit, tdee);
    WeekListShape(0.0);
    var s := Arange(0.0 + 1.0);
    assert |s| == 1 && s[0] == 0;
    assert s == [0];
  }

  /**
   * A target above the current weight gives a negative duration, and the week
   * list then holds at most the single week 0.
   */
  lemma ProjectionAboveTarget(pesoAtual: real, pesoAlvo: real, deficit: int, tdee: real)
    requires pesoAlvo > pesoAtual
    requires deficit > 0 && tdee > 0.0
    ensures
      var p := CalcularEvolucaoPeso(pesoAtual, pesoAlvo, deficit, tdee).value;
      && p.semanasNecessarias < 0.0
      && |p.semanas| <= 1
      && |p.pesos| == |p.semanas|
      && (|p.pesos| == 1 ==> p.pesos == [pesoAtual])
  {
    var w := WeeksNeeded(pesoAtual, pesoAlvo, deficit, tdee);
    WeeksNeededSign(pesoAtual, pesoAlvo, deficit, tdee);
    ArangeLength(w + 1.0);
  }

  /**
   * The recommended intake and the projection agree: eating that intake every
   * day for the computed number of weeks burns exactly the kcal content of
   * the weight to lose.
   */
  lemma IntakeMatchesProjection(pesoAtual: real, pesoAlvo: real, deficit: int, tdee: real)
    requires deficit != 0 && tdee != 0.0
    ensures WeeklyDeficit(deficit, tdee) == 7.0 * (tdee - CaloriasNecessarias(tdee, deficit))
    ensures
      WeeksNeeded(pesoAtual, pesoAlvo, deficit, tdee) * 7.0 * (tdee - CaloriasNecessarias(tdee, deficit))
      == (pesoAtual - pesoAlvo) * KcalPerKg
  {
    var w := WeeksNeeded(pesoAtual, pesoAlvo, deficit, tdee);
    assert 7.0 * (tdee - CaloriasNecessarias(tdee, deficit)) == WeeklyDeficit(deficit, tdee);
    assert w * 7.0 * (tdee - CaloriasNecessarias(tdee, deficit)) == w * WeeklyDeficit(deficit, tdee);
  }

  /**
   * Every combination of inputs the calculator's widgets allow projects
   * without a division by zero, and recommends less than the TDEE.
   */
  lemma WidgetInputsProject(peso: real, altura: real, idade: int, sexo: string, a: Energy.ActivityLevel,
                            pesoAlvo: real, deficit: int)
    requires Energy.InWidgetRanges(peso, altura, idade)
    requires 30.0 <= pesoAlvo <= 200.0
    requires deficit in {10, 15, 20}
    ensures CalcularEvolucaoPeso(peso, pesoAlvo, deficit, Energy.Tdee(peso, altura, idade, sexo, a)).Success?
    ensures CaloriasNecessarias(Energy.Tdee(peso, altura, idade, sexo, a), deficit)
            < Energy.Tdee(peso, altura, idade, sexo, a)
  {
    Energy.TdeePositiveInWidgetRanges(peso, altura, idade, sexo, a);
  }

  /**
   * 70 kg down to 65 kg at a 15% deficit of 2000 kcal: 2100 kcal a week,
   * 38500 kcal in all, 55/3 weeks, hence 20 weekly points (weeks 0 to 19)
   * from 70 kg down to 65 kg.
   */
  lemma WorkedExample()
    ensures WeeklyDeficit(15, 2000.0) == 2100.0
    ensures WeeksNeeded(70.0, 65.0, 15, 2000.0) == 55.0 / 3.0
    ensures
      var p := CalcularEvolucaoPeso(70.0, 65.0, 15, 2000.0).value;
      && |p.semanas| == 20 && p.semanas[19] == 19
      && |p.pesos| == 20 && p.pesos[0] == 70.0 && p.pesos[19] == 65.0
    ensures CaloriasNecessarias(2000.0, 15) == 1700.0
  {
    var w := WeeksNeeded(70.0, 65.0, 15, 2000.0);
    assert w * 2100.0 == 38500.0;
    WeekListShape(w);
    CeilUnique(w, 19);
  }
}
