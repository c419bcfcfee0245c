# Crypto logic dashboard: the verdict layer

This project models the decision layer of a small crypto/stock dashboard. The
dashboard downloads a frame of candles. It attaches a 14-period RSI column and
the MACD columns. It then turns the latest readings into discrete verdicts:

- an RSI verdict (OVERBOUGHT above 70, OVERSOLD below 30, NEUTRAL otherwise), with a fixed heading and advisory sentence;
- an "Extreme"/"Normal" status label for the same RSI;
- a bullish/bearish interpretation of the sign of the latest MACD line value;
- a 50-point history window of the close and RSI columns.

An empty download produces only a "data not found" warning.

Files:

- `signals.dfy` (module `Signals`): the verdict enum, the threshold classifier, the headings and advice, the status label and the MACD interpretation, with lemmas about them.
- `window.dfy` (module `Window`): the latest element of a series and the `tail(k)` window.
- `app.dfy` (module `App`): the frame as a sequence of rows, its columns, and the page built from it.

Readings are exact `real`s. The page is a value (`App.Page`) rather than a
sequence of widget calls, so the model states what the page shows. Its three
sections follow the page: the scoreboard (verdict and advice), the history
charts, and the indicator library (status label and MACD reading).

Points about what the code does, and what the model therefore does:

- The code has no error path for an undefined RSI. A NaN reading fails both comparisons, so the scoreboard shows NEUTRAL and the status says "Normal" (see "## Left out" for what happens next).
- The code tests the `MACD_12_26_9` column, which is the MACD line, not the histogram, so the `macd` field of `App.Row` is the MACD line.
- An empty frame only shows a warning; no error is raised and nothing else is built (`App.NotFound`).
- Only non-emptiness is checked; there is no minimum length for indicator warm-up.

## Model

| member | source | states |
|---|---|---|
| Signals.Classify | app.py:35-43 | the verdict is Overbought exactly when rsi > 70, Oversold exactly when rsi < 30, and Neutral exactly when 30 <= rsi <= 70 |
| Signals.Heading | app.py:36-42 | each verdict has its own alert heading (OVERBOUGHT, OVERSOLD, NEUTRAL with their icons), and each heading identifies its verdict |
| Signals.Advice | app.py:37-43 | each verdict has its own fixed advisory sentence, and each sentence identifies its verdict |
| Signals.Status | app.py:59 | the label is "Extreme" exactly when the classifier's verdict is not Neutral, and "Normal" exactly when it is Neutral |
| Signals.Interpretation | app.py:66-69 | the reading is bullish exactly when the MACD value is strictly positive, and bearish for every value <= 0 |
| Signals.OverboughtHasBullTrapAdvice | app.py:35-37 | any RSI above 70 is Overbought, with the overheated / 'Bull Trap' advice and the OVERBOUGHT heading |
| Signals.OversoldHasValueZoneAdvice | app.py:38-40 | any RSI below 30 is Oversold, with the 'Value Zone' advice and the OVERSOLD heading |
| Signals.BoundariesAreNeutral | app.py:35-43 | exactly 70 and exactly 30 are Neutral and "Normal", because both bounds are exclusive; values just past each bound are not |
| Signals.ExactlyOneVerdict | app.py:35-43 | the classifier is total: its verdict's range holds the reading, and no other verdict's range does |
| Signals.CheckOrderIrrelevant | app.py:35-43 | testing "< 30" before "> 70" gives the same verdict for every reading |
| Signals.AdviceDistinguishesVerdicts | app.py:36-43 | two verdicts share an advisory sentence, or a heading, only when they are the same verdict |
| Signals.ZeroMacdIsBearish | app.py:66-69 | a MACD value of exactly 0, like every negative value, is bearish |
| Window.Last | app.py:25 | the selected value is the final element of the series |
| Window.Tail | app.py:47-48 | the window has length min(k, \|s\|), it is a suffix of the series, and it keeps the series' order |
| Window.TailEndsWithLast | app.py:25-48 | the window's last element is the series' latest element, which is the value that gets classified |
| Window.TailIsSuffix | app.py:47-48 | the dropped prefix followed by the window gives back the series |
| Window.TailOfShortSeries | app.py:47-48 | a series no longer than the window is shown whole, without padding |
| Window.TailSlides | app.py:47-48 | when one point is appended, the window gains it at the end and, once full, drops its oldest point |
| App.Closes | app.py:47 | the close column has one entry per row, in row order |
| App.Rsis | app.py:21-25 | the RSI column has one entry per row, in row order |
| App.ScoreboardFor | app.py:33-43 | the scoreboard shows the given RSI, a verdict whose range holds that RSI, and that verdict's heading and advice |
| App.HistoryFor | app.py:47-48 | both charts hold the last min(50, \|frame\|) rows in order, and the RSI chart of a non-empty frame ends with its latest reading |
| App.LibraryFor | app.py:59-69 | the status is "Extreme" exactly when the classifier's verdict is not Neutral; the MACD reading is bullish exactly when the value is positive |
| App.Render | app.py:19-72 | an empty frame gives only the "Data not found" warning; otherwise every section is built from the last row and the trailing rows, the status label is "Extreme" exactly when the scoreboard's verdict is not Neutral, and the RSI chart ends with the scoreboard's reading |
| App.ClosesCommuteWithTail | app.py:47 | the close values of the last k rows are the last k values of the close column |
| App.RsisCommuteWithTail | app.py:48 | the RSI values of the last k rows are the last k values of the RSI column, so both charts cover the same rows |
| App.VerdictDependsOnLatestRowOnly | app.py:25-69 | two non-empty frames that end in the same row get the same scoreboard and the same indicator library section |

## Left out

- The download from the market-data provider (app.py:17). It is network I/O, so the frame is a parameter of `App.Render`.
- The symbol and timeframe pickers (app.py:13-14). They only choose what to download.
- The RSI and MACD computation (app.py:21-23). It is done by a technical-analysis library whose source is not part of this model, so the indicator values arrive as given fields of `App.Row`.
- NaN readings during indicator warm-up. Readings are exact reals. In the code a NaN RSI fails both comparisons, so the scoreboard shows NEUTRAL (app.py:35-43) and the status says "Normal" (app.py:59); then `int(current_rsi)` at app.py:60 raises a `ValueError` (a NaN cannot be converted to an integer), so the MACD section (app.py:62-69) is never written. If the latest MACD reading is NaN, `last_macd > 0` is false, so it reads as bearish (app.py:66-69). The model has neither the NaN value nor that exception.
- Page layout and widgets: page config, title, columns, tabs, expander, charts, metric formatting, the alert box colours, the "**Advice:**", "Status: " and "Interpretation: " prefixes, and the "MACD Value: " line with its four-decimal rounding (app.py:7-14, 28-33, 45-63, 65). `lastMacd` in `App.Library` keeps the exact value. These are presentation only. The model keeps alert headings, advice sentences, status labels and interpretation sentences as plain strings.
- The `int(current_rsi)` truncation for the progress bar (app.py:60). For a defined RSI it only feeds a widget; for a NaN RSI it raises and stops the page before the MACD section, which the model does not capture (see the NaN line above).
- Column naming and dataframe alignment (app.py:23, 64). These are library conventions. Alignment holds by construction, because a frame is a sequence of rows.
