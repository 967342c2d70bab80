# Weight-forecast calculator: a Dafny model of its numeric core

The calculator (`app_streamlit.py`) estimates a user's total daily energy
expenditure (TDEE) with the Mifflin-St Jeor equation. It then projects a
straight-line weight-loss trajectory to a target weight under a chosen
caloric deficit of 10, 15 or 20 percent. This project models that arithmetic
over exact reals and proves what it computes:

- `energy.dfy`, module `Energy`: the basal metabolic rate (`Bmr`), the five
  activity levels and the literal factor dictionary (`FactorTable`), and the
  TDEE. `Tdee` takes a typed level. `TdeeByLabel` is the dictionary lookup
  the code performs; an unknown label gives `None`, where Python raises
  `KeyError`.
- `series.dfy`, module `Series`: the two numpy builders the projection
  uses. `Arange(stop)` is `np.arange(0, stop)`. `Linspace(start, stop, n)` is
  `np.linspace(start, stop, n)`, built as numpy builds it: start + i·step for
  every point, then the last point overwritten with stop. `Ceil` is the
  integer ceiling.
- `projection.dfy`, module `Projection`: the weekly deficit, the weeks
  needed, `CalcularEvolucaoPeso` (the week list and weight list together with
  the weeks needed), and `CaloriasNecessarias`, the daily intake shown on the
  page.
- `wrappers.dfy`, module `Wrappers`: `Option` and `Result`.

Sex is the string the code compares. `"Masculino"` selects +5 and every other
value selects −161. A zero weekly deficit is Python's `ZeroDivisionError` at
the division on line 38. It is modelled as `Failure(ZeroDivisionError)`.

Behaviour worth knowing, as the code has it:

- `np.arange` excludes its stop. So the week list for a duration `w >= 0` is
  `0, 1, …, ceil(w)`, which is `ceil(w) + 1` points, not `floor(w) + 1`. The
  last point lies at or after `w` and less than a week later. For 70 → 65 kg
  at 15 % of 2000 kcal, `w = 55/3` and there are 20 points (weeks 0 to 19).
- A target above the current weight raises no error. The duration is
  negative and the series has at most one point, `(0, current weight)`.
  The model covers this case (`Projection.ProjectionAboveTarget`).
- A 70 kg, 170 cm, 30-year-old sedentary man has a BMR of 1617.5 kcal and a
  TDEE of 1941 kcal.

## Model

| member | source | states |
|---|---|---|
| `Energy.BmrCoefficients` | app_streamlit.py:17-20 | the BMR rises by 10 kcal per kg and 6.25 kcal per cm, falls by 5 kcal per year, is 166 kcal higher for "Masculino" than for any other sex value, and is 5 kcal at zero weight, height and age for "Masculino" |
| `Energy.Factor` | app_streamlit.py:22-28 | every activity factor lies between 1.2 and 1.9 |
| `Energy.TdeeByLabel` | app_streamlit.py:16-30 | the dictionary lookup succeeds exactly when the label names one of the five levels; otherwise the lookup fails (KeyError) |
| `Energy.LabelsAreTableKeys` | app_streamlit.py:22-28 | the dictionary's keys are exactly the five level labels, and each maps to that level's factor |
| `Energy.Tdee` | app_streamlit.py:16-30 | the TDEE of a level is exactly what the dictionary lookup of that level's label returns (BMR × factor) |
| `Energy.LabelInjective` | app_streamlit.py:22-28 | two levels share a label only if they are the same level |
| `Energy.FactorOrdered` | app_streamlit.py:22-28 | the factors rise strictly with activity rank, in both directions of the equivalence |
| `Energy.FactorIsOneOfFive` | app_streamlit.py:22-28 | each factor is one of 1.2, 1.375, 1.55, 1.725, 1.9 |
| `Energy.FemaleTdeeIsMaleMinus166` | app_streamlit.py:17-30 | for any non-"Masculino" sex, the TDEE equals the male TDEE minus 166 × factor |
| `Energy.TdeeIncreasingInWeight` | app_streamlit.py:18-30 | with everything else fixed, a heavier weight gives a strictly larger TDEE |
| `Energy.TdeeIncreasingInHeight` | app_streamlit.py:18-30 | with everything else fixed, a greater height gives a strictly larger TDEE |
| `Energy.TdeeDecreasingInAge` | app_streamlit.py:18-30 | with everything else fixed, an older age gives a strictly smaller TDEE |
| `Energy.TdeeMonotoneInLevel` | app_streamlit.py:22-30 | for a positive BMR, a more active level never gives a lower TDEE |
| `Energy.TdeePositiveInWidgetRanges` | app_streamlit.py:60-62 | within the widget ranges (weight 30–200, height 100–250, age 10–120) the BMR is at least 164 and the TDEE at least 196.8 |
| `Energy.WorkedExample` | app_streamlit.py:16-30 | a 70 kg, 170 cm, 30-year-old sedentary man: BMR 1617.5, TDEE 1941 |
| `Series.Ceil` | app_streamlit.py:40 | the result is the integer c with x ≤ c < x + 1 |
| `Series.CeilUnique` | app_streamlit.py:40 | any integer in [x, x + 1) is the ceiling of x |
| `Series.Arange` | app_streamlit.py:40 | the result counts 0, 1, 2, … and holds exactly the integers k with 0 ≤ k < stop |
| `Series.ArangeLength` | app_streamlit.py:40 | np.arange(0, stop) has ceil(stop) points, or none when stop ≤ 0 |
| `Series.Linspace` | app_streamlit.py:41 | n points; the first is start (n ≥ 1) and the last is stop (n ≥ 2) |
| `Series.LinspaceAt` | app_streamlit.py:41 | with n ≥ 2 points, every point i, the overwritten last one included, is start + i·(stop − start)/(n − 1) |
| `Series.LinspaceEvenlySpaced` | app_streamlit.py:41 | with n ≥ 2 points, each point is exactly (stop − start)/(n − 1) beyond the one before |
| `Series.LinspaceDistance` | app_streamlit.py:41 | points j ≥ i are j − i steps apart |
| `Series.LinspaceNonIncreasing` | app_streamlit.py:41 | when stop ≤ start, later points are never above earlier ones |
| `Series.LinspaceBounds` | app_streamlit.py:41 | when stop ≤ start, every point lies in [stop, start] |
| `Projection.DailyDeficit` | app_streamlit.py:35 | the daily deficit is the TDEE minus the recommended intake, and positive for a positive percentage and TDEE |
| `Projection.WeeklyDeficit` | app_streamlit.py:35 | the weekly deficit is zero exactly when the percentage or the TDEE is zero, and positive when both are positive |
| `Projection.WeeksNeeded` | app_streamlit.py:34-38 | weeks × weekly deficit equals the kcal content (7700 kcal/kg) of the weight to lose |
| `Projection.CalcularEvolucaoPeso` | app_streamlit.py:33-47 | fails with a division by zero exactly when the percentage or the TDEE is zero; on success the weeks needed times the weekly deficit equal the kcal content of the weight to lose, the weeks are 0, 1, 2, … and exactly the integers below weeks + 1, there is one weight per week, the first weight is the current one, and with two or more points the last is the target and consecutive weights differ by (target − current)/(n − 1) |
| `Projection.CaloriasNecessarias` | app_streamlit.py:99 | the intake is tdee·(1 − deficit/100); it is below the TDEE for a positive deficit and TDEE, and within [0, tdee] for a percentage in [0, 100] |
| `Projection.WeeksNeededZeroIffAtTarget` | app_streamlit.py:34-38 | the weeks needed are zero exactly when target equals current weight |
| `Projection.WeeksNeededSign` | app_streamlit.py:34-38 | with a positive deficit and TDEE, a lower target needs positive time and a higher one negative time |
| `Projection.WeekListShape` | app_streamlit.py:40 | for weeks w ≥ 0 the week list has ceil(w) + 1 ≥ 1 points, and its last week lies in [w, w + 1) |
| `Projection.WeekListIncreasing` | app_streamlit.py:40 | the week list is strictly increasing |
| `Projection.ProjectionShape` | app_streamlit.py:33-47 | for a target not above the current weight and a positive deficit and TDEE: the projection succeeds, w ≥ 0, there are ceil(w) + 1 weights, and the last is the target (the current weight when there is one point) |
| `Projection.ProjectionDescends` | app_streamlit.py:41 | for a target not above the current weight: the projected weights never rise and all lie within [target, current] |
| `Projection.ProjectionAtTarget` | app_streamlit.py:33-47 | target equal to current weight: zero weeks and the single point (0, current weight) |
| `Projection.ProjectionAboveTarget` | app_streamlit.py:33-47 | target above current weight: negative weeks and at most one point, the current weight |
| `Projection.IntakeMatchesProjection` | app_streamlit.py:99 | the weekly deficit is 7 × (TDEE − recommended intake), and eating that intake for the computed weeks loses exactly the weight's kcal content |
| `Projection.WidgetInputsProject` | app_streamlit.py:60-72 | every input the widgets allow projects without a division by zero, and the recommended intake is below the TDEE |
| `Projection.WorkedExample` | app_streamlit.py:33-47 | 70 → 65 kg at 15 % of 2000 kcal: 2100 kcal a week, 55/3 weeks, 20 points from 70 to 65, and an intake of 1700 kcal |

## Left out

- `load_lottieurl` (app_streamlit.py:9-13): a network fetch, so it is I/O.
- The rest of `main` (app_streamlit.py:49-103): widgets, the Plotly chart, its annotation and axis range, and the `st.write` texts are presentation. The widget ranges are kept as preconditions in `Energy.InWidgetRanges` and `Projection.WidgetInputsProject`.
- The DataFrame wrapper (app_streamlit.py:43-46): it is a container for the two lists, which `Projection.Plan` holds as `semanas` and `pesos`.
- `int()` truncation in the display strings (app_streamlit.py:101,103): presentation only.
- IEEE-754 rounding in Python floats and numpy: everything is over exact reals. numpy's week values are integral floats; they are modelled as `int`.
- Python's dynamic typing: weight and height are reals, age and the deficit percentage are integers, as the widgets produce them.
