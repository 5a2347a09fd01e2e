# Zielchecker: the price-target check

This project models the decision logic of `run_zielchecker` in `zielchecker.py`
(the "Zielchecker" panel of the trading dashboard). The handler loads hourly
bars for one month. If none arrive, it warns and stops. Otherwise it offers a
target-price input that defaults to the last close. When the "Check Ziel"
button is pressed, it refuses to work on fewer than 20 bars. On 20 or more it
reports four things:

- the trend: "Aufwärts" when the last EMA50 value is strictly above the last
  EMA200 value, otherwise "Abwärts";
- the support: the lowest `Low` of the last 20 bars;
- the resistance: the highest `High` of the last 20 bars;
- a fixed probability of reaching the target: 0.7 when
  support ≤ target ≤ resistance, otherwise 0.3.

Files:

- `wrappers.dfy`: module `Wrappers`, the `Option` type.
- `rolling.dfy`: module `Rolling`, trailing-window minimum and maximum of a
  price column (pandas `rolling(window=20).min()` / `.max()` read at the last
  row) and the fact that only the window decides them.
- `zielchecker.dfy`: module `Zielchecker`, bars, trend, band, probability,
  the assessment (`Assess`) and one run of the handler (`RunZielchecker`),
  with the properties of each.

Prices are exact reals. The probability is the exact real 7/10 or 3/10. The
last EMA50 and EMA200 values are inputs, because the moving averages come from
a library. The target input is an `Option<real>`: `None` means the user left
it at its default, the last close. The button is a `bool`.

The code has no "sufficient history" flag for the 200-bar average. The only
guard is the 20-bar one, so the model has only that guard.

## Model

| member | source | states |
|---|---|---|
| Rolling.MinOf | zielchecker.py:40 | the rolling minimum is one of the window's values and no value of the window is below it |
| Rolling.MaxOf | zielchecker.py:41 | the rolling maximum is one of the window's values and no value of the window is above it |
| Rolling.ExtremaAreUnique | zielchecker.py:40-41 | a window has only one least and one greatest value, so the rolling extrema are fully determined |
| Rolling.TrailingExtremaAreLocal | zielchecker.py:40-41 | two columns that agree on their last n values have the same trailing minimum and maximum, whatever their length and earlier values |
| Zielchecker.TrendOf | zielchecker.py:39 | the trend is "Aufwärts" exactly when the last EMA50 is strictly above the last EMA200 |
| Zielchecker.Support | zielchecker.py:40 | support is at or below the low of every one of the last 20 bars and equals the low of one of them |
| Zielchecker.Resistance | zielchecker.py:41 | resistance is at or above the high of every one of the last 20 bars and equals the high of one of them |
| Zielchecker.TargetProbability | zielchecker.py:42 | the probability is either 0.7 or 0.3, and it is 0.7 exactly when support ≤ target ≤ resistance |
| Zielchecker.Assess | zielchecker.py:34-42 | no assessment exactly when there are fewer than 20 bars; otherwise the trend rule, support and resistance as window bound and attained value, and 0.7 inside the closed band, 0.3 outside |
| Zielchecker.RunZielchecker | zielchecker.py:23-42 | empty data ends the run with the no-data warning; without a press only the target (entered, or the last close) is shown; a press warns on fewer than 20 bars and otherwise reports the assessment of the shown target |
| Zielchecker.EmptyDataStopsEarly | zielchecker.py:23-25 | empty data gives the no-data warning whatever the target, the button and the averages are |
| Zielchecker.TwentyBarsUseWholeSeries | zielchecker.py:34-41 | exactly 20 bars are enough, and then support and resistance are the extrema of the whole series |
| Zielchecker.BandIsRollingExtrema | zielchecker.py:40-41 | support is exactly the least low of the trailing 20-bar window and resistance exactly the greatest high |
| Zielchecker.BandIsLocal | zielchecker.py:40-41 | two series that agree on their last 20 bars have the same support and resistance |
| Zielchecker.EarlierBarDoesNotMatter | zielchecker.py:40-41 | replacing any bar before the last 20 leaves support and resistance unchanged |
| Zielchecker.HistoryDoesNotMatter | zielchecker.py:40-41 | prepending any history leaves support and resistance unchanged |
| Zielchecker.BandIsClosed | zielchecker.py:42 | target = support and target = resistance both give 0.7; a target below support or above resistance gives 0.3 |
| Zielchecker.ProbabilityIsOrdered | zielchecker.py:42 | the probability lies strictly between 0 and 1 and an in-band target is never rated below any other target |
| Zielchecker.EqualAveragesAreNotUpward | zielchecker.py:39 | equal EMA50 and EMA200 values give "Abwärts" |
| Zielchecker.BandIsOrdered | zielchecker.py:40-42 | when each bar of the window has low ≤ high, support ≤ resistance, so the band is never empty |
| Zielchecker.DefaultTargetIsInBand | zielchecker.py:27-42 | with the default target (last close), 20 or more bars and a last bar whose close lies within its low and high, the check reports 0.7 |

## Left out

- Loading the data (`yf.download`, zielchecker.py:18-21) and its error message: network I/O. The model starts from the loaded bars.
- The EMA50 and EMA200 series (zielchecker.py:37-38): computed by the `pandas_ta` library, whose seeding and short-input behaviour is not part of this model. Their last values are inputs. Hazard: the 20-bar guard does not ensure the 50 or 200 bars these averages need.
- Missing values: pandas propagates NaN through rolling extrema, and a NaN comparison would give 0.3 or "Abwärts". The model assumes every price is present.
- Streamlit UI: the subheader, the input widget and the button themselves, the warnings and the metrics, and the percentage and two-decimal formatting (zielchecker.py:44-47).
- `get_chart_data` in app.py (app.py:20-33): an HTTP request and JSON-to-table flattening with `dropna`.
- `SimplePredictor` in app.py (app.py:36-39): it only constructs a scaler and a regressor from a machine-learning library; no training or prediction is defined.
- The RSI, MACD and forecasting described for the wider repository: they are not in these files, so they are not part of this model.
