# Fitness tracker nutrition arithmetic, in Dafny

This project models the calculation core of the Streamlit fitness page `app.py`. The page has three calculations:

- **TDEE** (total daily energy expenditure). It is the entered BMR (basal metabolic rate) times the multiplier of one of five activity levels (module `Tdee`, `tdee.dfy`).
- **Macro auto-fill button.** Four session-state inputs hold calories, protein, carbs and fat, and any of them may be empty. When exactly one is empty, the button solves it from the other three at 4 kcal/g for protein and carbs and 9 kcal/g for fat. A solved macro is rounded to one decimal and clamped at 0. In every other case the button changes nothing. The session state is the class `Macros.Session`. The callback is its method `AutoFillMacros`, proved against the pure rule `Macros.Fill` (`macros.dfy`).
- **30-day weight chart.** The chart is refused when calories are missing or the TDEE is not positive. Otherwise it builds two straight-line weight series losing 1 kg per 7700 kcal. One uses a fixed 500 kcal daily deficit, the other uses TDEE minus the entered calories (module `Projection`, `projection.dfy`).

How the numbers are modelled:

- Python floats are Dafny `real`.
- Python's `round(x, 1)` rounds half to even on binary floats, which exact reals cannot reproduce. So the fill rule takes the rounding as a parameter `round: real -> real`.
- Properties that hold whatever the rounding does are proved for every `round`: which field changes, clamping at 0, the no-op cases and idempotence.
- Properties of the exact arithmetic are proved with `Rounding.Exact` (no rounding).
- The round trip needs only that the rounding moves no value by more than 0.05 (`Rounding.WithinHalfTenth`). `Rounding.Round1`, exact decimal round-half-to-even, is proved to be such a rounding.
- Calendar dates are day offsets 0..29 from today.
- Widget inputs (BMR, activity level, weight, the four boxes) are parameters or the initial state. Their widget bounds (BMR >= 0, weight >= 30 kg) are preconditions.

Two details of the fill rule in app.py:

- When zero, two, three or four inputs are empty, the button changes nothing (`FillNoOpIff`).
- Solved calories are rounded but not clamped at 0 (app.py:53). Only solved macros are clamped (app.py:58-62).

## Model

| member | source | states |
|---|---|---|
| `Macros.Session.constructor` | app.py:41-43 | on the first run all four inputs are empty |
| `Macros.Session.AutoFillMacros` | app.py:45-62 | the callback's new session state is the auto-fill rule applied to the old state |
| `Macros.Fill` | app.py:45-62 | a present input is never changed; when exactly one input is empty the result is complete; otherwise the state is returned unchanged; a macro it fills is >= 0 whatever the rounding |
| `Macros.FillNoOpIff` | app.py:52-62 | the button changes the state if and only if exactly one input is empty |
| `Macros.FilledValue` | app.py:52-62 | the filled value is round(energy of the three macros) for calories, and max(0, round((calories - energy of the other macros) / kcal per gram)) for a macro |
| `Macros.FillIdempotent` | app.py:52-62 | pressing the button twice gives the same state as pressing it once |
| `Macros.ExactFillBalances` | app.py:53-62 | before rounding, the filled state satisfies calories = 4p + 4c + 9f exactly when no clamping was needed (calories solved, or the present macros' energy <= calories) |
| `Macros.RoundTrip` | app.py:53-62 | filling calories from non-negative macros, then emptying one macro and filling it back, restores it within 1/16 g for any rounding off by at most 0.05 |
| `Macros.Clamp` | app.py:58 | `max(0.0, x)` is >= 0, >= x, and is x or 0 |
| `Rounding.Round1` | app.py:53 | one-decimal rounding is off by at most 0.05 and lands on a whole number of tenths |
| `Rounding.Round1TieToEven` | app.py:53 | a value halfway between two tenths goes to the even tenth, off by exactly 0.05 |
| `Rounding.Round1WithinHalfTenth` | app.py:53 | Round1 meets the error bound the round trip needs |
| `Tdee.Multiplier` | app.py:20-26 | every activity multiplier lies between 1.2 and 1.9 |
| `Tdee.MultiplierIsTableEntry` | app.py:20-26 | each level's multiplier is its own entry of the five-entry table {1.2, 1.375, 1.55, 1.725, 1.9}, and every entry is some level's multiplier |
| `Tdee.MultiplierIncreasing` | app.py:20-26 | a later level in the drop-down has a larger multiplier, and conversely |
| `Tdee.ComputeTdee` | app.py:17-30 | for BMR >= 0 the TDEE lies between 1.2 and 1.9 times BMR, is >= 0, and is > 0 exactly when BMR > 0 |
| `Tdee.TdeeMonotone` | app.py:20-30 | for a positive BMR a more active level gives a strictly larger TDEE, and conversely |
| `Tdee.DefaultTdee` | app.py:17-30 | the default inputs (BMR 1600, sedentary) give 1920 kcal |
| `Projection.WeightSeries` | app.py:94-101 | the series has one entry per day, starts at the current weight and drops by deficit/7700 every day |
| `Projection.WeightSeriesUnique` | app.py:94-101 | any sequence that starts at the weight and drops by deficit/7700 each day is the series |
| `Projection.StrictlyDecreasingIff` | app.py:94-101 | the series strictly decreases if and only if the deficit is positive |
| `Projection.NonIncreasingIff` | app.py:98-101 | the series never increases if and only if the deficit is non-negative |
| `Projection.BuildChart` | app.py:80-101 | missing calories gives that error; otherwise TDEE <= 0 gives the TDEE error; otherwise 30 day offsets 0..29, the 500 kcal series and the TDEE-minus-calories series |
| `Projection.ChartTrends` | app.py:89-101 | a built chart starts both lines at today's weight; the theoretical line strictly falls; the actual line never rises exactly when calories <= TDEE |
| `Projection.ChartBuiltIff` | app.py:30-86 | with the TDEE from the activity table, a chart is built exactly when calories are entered and BMR > 0 |
| `Macros.MacroExamples` | app.py:52-60 | with decimal rounding, 50/200/60 g gives 1540 kcal, and 2000 kcal with 150 g protein and 50 g fat gives 237.5 g carbs |
| `Projection.ProjectionExample` | app.py:94-101 | 80 kg at a 550 kcal deficit: day 0 is 80 and day 29 is 80 - 29 * 550/7700 |

## Left out

- Streamlit widgets, page layout, headers, captions and the error texts (app.py:7-16, app.py:27, app.py:31-38, app.py:64-72, app.py:83-85). Only the outcome of the chart guard is modelled: error or chart.
- Streamlit's rerun of the whole script. The constructor models only the first run; on a rerun the keys already exist and the init loop leaves them untouched.
- matplotlib plotting, axis formatting, locators and the legend (app.py:87, app.py:104-118). This is a foreign charting library.
- `datetime.date.today()` and `timedelta` arithmetic (app.py:90-91). These read the wall clock; dates are day offsets instead.
- IEEE-754 float behaviour and Python's exact `round` on binary values. The model uses exact reals, and the rounding is a parameter or the decimal reference `Round1`.
- The whole-number rounding used only for display: the TDEE (app.py:31) and the deficit in the legend (app.py:105).
- app.py has no daily calorie target, body-composition records or diet log, so none is modelled.
