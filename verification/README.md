# MACD crossover labeler — Dafny model

This project models the signal-labeling core of a small stock-analysis
dashboard. After the dashboard has computed a MACD line and its signal line
for a month of daily bars, it makes one forward pass over the bars. It gives
each bar a flag: `'C'` (compra, buy), `'V'` (venda, sell) or `''` (no signal).
It also fills a buy-price column and a sell-price column with the bar's close,
but only on the bar where a direction is first entered. The last bar's flag is
then turned into a recommendation (VENDA, COMPRA, MANTER, or INDEFINIDO for an
unknown code) and a display colour.

Modules:

- `Wrappers` (`wrappers.dfy`): `Option`, standing in for the NaN-filled price
  columns.
- `Labeler` (`labeler.dfy`): the flag datatype and its string codes. It holds
  three descriptions of the labeling: a bar-by-bar reference (`FlagAt`,
  `TriggerAt`), a functional fold (`Scan`) that decides each bar from the
  previous bar's flag as the loop does, and the loop itself over mutable
  columns (`LabelBars`). It also holds the lemmas about the labeling.
- `Status` (`status.dfy`): the code-to-status table and the status-to-colour
  table, each with its fallback.
- `Analysis` (`analysis.dfy`): labeling followed by the final status, as in
  one run of the dashboard.

MACD, signal and close values are modelled as `real`: the labeler only
compares them. The three input columns are parallel sequences of one length
(`Aligned`), because they are columns of one data frame.

Two details of the loop shape the model:

- The first bar is never examined (`range(1, len(df))`), so it always keeps
  the no-signal flag and no price, even when its MACD is above or below its
  signal line.
- On a tie (`MACD == sinal`) the loop assigns nothing. The bar keeps the
  pre-initialised `''` flag and no prices, whatever the previous bar's flag.

## Model

| member | source | states |
|---|---|---|
| Labeler.LabelBars | app.py:77-93 | Gives one flag, one buy slot and one sell slot per bar. Bar 0 has no flag and no prices. For i ≥ 1 the flag is buy iff MACD > signal, sell iff MACD < signal, and none iff they are equal. A buy (sell) price is present iff i ≥ 1, the bar is buy (sell) and the previous bar is not; when present it equals that bar's close. The loop computes exactly the functional fold `Scan`. |
| Labeler.Scan | app.py:81-93 | The fold over the first n bars yields n entries in each column, and bar 0 has no flag and no prices. |
| Labeler.ScanMatchesReference | app.py:81-93 | Deciding each bar from the flag the fold gave the previous bar produces, on every bar, the same flag as the bar-by-bar reference (bar 0 none, later bars by their own crossing). It also produces exactly the edge-trigger prices. |
| Labeler.NoBarBuysAndSells | app.py:82-93 | No bar carries both a buy price and a sell price. |
| Labeler.ContinuationHasNoTrigger | app.py:81-93 | A bar after the first whose flag equals the previous bar's flag records no price, and a bar with no signal, the first bar included, never records a price. |
| Labeler.TriggersAreSeparated | app.py:83-91 | Between any two buy prices (or any two sell prices) there is at least one bar strictly in between, and the bar just before the later trigger is outside that direction. |
| Labeler.FlagIsLocal | app.py:81-93 | A bar's flag depends only on that bar's MACD and signal values: two series that agree there give it the same flag, whatever the earlier bars were. |
| Labeler.Crossing | app.py:82-93 | The per-bar reading is buy iff MACD > signal, sell iff MACD < signal, and no signal iff they are equal. |
| Labeler.Step | app.py:82-93 | One loop iteration: the bar's flag is its crossing reading; a buy (sell) price is recorded iff the bar is buy (sell) and the previous flag is not, and it is the bar's close. |
| Labeler.Code | app.py:77-93 | Buy is written as 'C', sell as 'V' and no signal as ''; each code belongs to exactly one flag. |
| Labeler.ParseCode | app.py:77-93 | A flag-column string that parses as a flag is the code of that flag. |
| Labeler.CodeRoundTrip | app.py:77-93 | Parsing a flag's code gives back the flag, and only the strings 'C', 'V' and '' parse. |
| Status.StatusOfCode | app.py:101-102 | 'V' maps to VENDA, 'C' to COMPRA and '' to MANTER; INDEFINIDO is returned exactly for strings that are not flag codes. |
| Status.Text | app.py:101-103 | VENDA, COMPRA, MANTER and INDEFINIDO each have their own text, and no two share one. |
| Status.ColourOfText | app.py:103-104 | 'VENDA' is red, 'COMPRA' green and 'MANTER' yellow; every other text, 'INDEFINIDO' included, is black. |
| Status.ColourOfStatus | app.py:103-104 | VENDA is red, COMPRA green and MANTER yellow; black is used exactly for INDEFINIDO. |
| Status.FinalStatus | app.py:99-104 | For a non-empty flag column the status and colour come from the last flag only: buy gives COMPRA/green, sell VENDA/red, none MANTER/yellow. INDEFINIDO/black is never produced. |
| Analysis.Analyse | app.py:77-104 | A non-empty run labels the bars as `Scan` does. Its status is never INDEFINIDO and its colour never black. The status is COMPRA iff there is more than one bar and the last MACD is above the last signal, VENDA iff more than one bar and below, MANTER iff one bar or a tie. The reported close is the last bar's close. |
| Analysis.SingleBarHolds | app.py:81-104 | A one-bar series always ends with MANTER in yellow, whatever its MACD and signal values. |

## Left out

- Market-data fetching (`ticker.history`, `ticker.info`, app.py:62-63, 108-109): network calls. The model takes the close column as input.
- `calcular_macd` (app.py:11-16): exponentially weighted means over floating point, computed by a library whose weighting is not shown. The MACD and signal columns are inputs.
- Charting (`plotar_macd`, app.py:19-49) and the dashboard widgets (app.py:8, 52-58, 70-71, 110-111): presentation only.
- Formatting: date formatting (app.py:66), rounding the last close to two decimals (app.py:100) and building the HTML message (app.py:105). `Analyse` returns the unrounded last close.
- Data-frame library details: whether chained assignment writes through to the frame, and NaN comparisons (which would fall into the tie branch). The model uses plain per-index writes and real numbers.
- An empty frame: `iloc[-1]` raises on it (app.py:99-100). `FinalStatus` and `Analyse` require at least one bar instead of modelling the exception; `LabelBars` and `Scan` accept the empty input.
- Multi-symbol batch processing with per-symbol error isolation: the code handles a single symbol, so there is nothing of that kind to model.
