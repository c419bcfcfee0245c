/** The page the dashboard builds from one downloaded frame of candles:
    either the "data not found" warning for an empty frame, or the live
    analysis built from the frame's latest row and its trailing window. */
module App {
  import opened Signals
  import opened Window

  /** One row of the frame after the indicator columns are attached: the
      closing price, the RSI reading and the MACD line reading. Keeping the
      three in one row makes the columns aligned by index. */
  datatype Row = Row(close: real, rsi: real, macd: real)

  /** The close column of a frame. */
  function Closes(frame: seq<Row>): (c: seq<real>)
    ensures |c| == |frame|
    ensures forall i :: 0 <= i < |frame| ==> c[i] == frame[i].close
  {
    if frame == [] then [] else [frame[0].close] + Closes(frame[1..])
  }

  /** The RSI column of a frame. */
  function Rsis(frame: seq<Row>): (c: seq<real>)
    ensures |c| == |frame|
    ensures forall i :: 0 <= i < |frame| ==> c[i] == frame[i].rsi
  {
    if frame == [] then [] else [frame[0].rsi] + Rsis(frame[1..])
  }

  /** The scoreboard: the current RSI, its verdict, and the verdict's
      heading and advice. */
  datatype Scoreboard = Scoreboard(currentRsi: real, verdict: Verdict, heading: string, advice: string)

  /** The two history charts: the trailing closes and RSI readings. */
  datatype History = History(closes: seq<real>, rsis: seq<real>)

  /** The indicator library: the RSI status label and the MACD reading. */
  datatype Library = Library(status: string, lastMacd: real, interpretation: string)

  datatype Page =
    | NotFound(warning: string)
    | Analysis(scoreboard: Scoreboard, history: History, library: Library)

  const NotFoundWarning: string := "Data not found. Please try a different symbol."

  function ScoreboardFor(rsi: real): (b: Scoreboard)
    ensures b.currentRsi == rsi
    ensures InRange(b.verdict, rsi)
    ensures b.heading == Heading(b.verdict) && b.advice == Advice(b.verdict)
  {
    var v := Classify(rsi);
    Scoreboard(rsi, v, Heading(v), Advice(v))
  }

  /** Both charts show the last min(`HistoryLength`, |frame|) rows in order,
      so a non-empty frame's RSI chart ends with its latest reading. */
  function HistoryFor(frame: seq<Row>): (h: History)
    ensures |h.closes| == |h.rsis| == Min(HistoryLength, |frame|)
    ensures forall i :: 0 <= i < |h.closes| ==> h.closes[i] == frame[|frame| - |h.closes| + i].close
    ensures forall i :: 0 <= i < |h.rsis| ==> h.rsis[i] == frame[|frame| - |h.rsis| + i].rsi
    ensures |frame| > 0 ==> h.rsis[|h.rsis| - 1] == frame[|frame| - 1].rsi
  {
    var closes := Tail(Closes(frame), HistoryLength);
    var rsis := Tail(Rsis(frame), HistoryLength);
    var n := |frame| - |closes|;
    assert forall i :: 0 <= i < |closes| ==> closes[i] == Closes(frame)[n + i];
    assert forall i :: 0 <= i < |rsis| ==> rsis[i] == Rsis(frame)[n + i];
    History(closes, rsis)
  }

  function LibraryFor(rsi: real, macd: real): (l: Library)
    ensures l.status == Extreme <==> Classify(rsi) != Neutral
    ensures l.status == Normal <==> Classify(rsi) == Neutral
    ensures l.lastMacd == macd
    ensures l.interpretation == BullishReading <==> macd > 0.0
    ensures l.interpretation == BearishReading <==> macd <= 0.0
  {
    Library(Status(rsi), macd, Interpretation(macd))
  }

  /** Builds the page for a frame. An empty frame yields only the warning;
      otherwise all three sections are built from the frame's latest row,
      and the history from its trailing rows. The sections agree: the
      status label is "Extreme" exactly when the scoreboard's verdict is not
      Neutral, and the RSI chart ends with the scoreboard's reading. */
  function Render(frame: seq<Row>): (p: Page)
    ensures p.NotFound? <==> frame == []
    ensures p.NotFound? ==> p.warning == NotFoundWarning
    ensures p.Analysis? ==>
      && p.scoreboard == ScoreboardFor(frame[|frame| - 1].rsi)
      && p.history == HistoryFor(frame)
      && p.library == LibraryFor(frame[|frame| - 1].rsi, frame[|frame| - 1].macd)
    ensures p.Analysis? ==>
      && (p.library.status == Extreme <==> p.scoreboard.verdict != Neutral)
      && p.history.rsis[|p.history.rsis| - 1] == p.scoreboard.currentRsi
  {
    if frame == [] then
      NotFound(NotFoundWarning)
    else
      var current := Last(frame);
      Analysis(
        ScoreboardFor(Last(Rsis(frame))),
        HistoryFor(frame),
        LibraryFor(Last(Rsis(frame)), current.macd))
  }

  /** Taking the last `k` rows and then a column gives the same window as
      taking the column and then its last `k` values: the two charts show
      the same rows. */
  lemma ClosesCommuteWithTail(frame: seq<Row>, k: nat)
    ensures Closes(Tail(frame, k)) == Tail(Closes(frame), k)
  {
  }

  /** The same for the RSI column. */
  lemma RsisCommuteWithTail(frame: seq<Row>, k: nat)
    ensures Rsis(Tail(frame, k)) == Tail(Rsis(frame), k)
  {
  }

  /** The verdict, status and interpretation depend only on the latest row:
      two frames that end in the same row produce the same readings. */
  lemma VerdictDependsOnLatestRowOnly(f: seq<Row>, g: seq<Row>)
    requires |f| > 0 && |g| > 0 && f[|f| - 1] == g[|g| - 1]
    ensures Render(f).scoreboard == Render(g).scoreboard
    ensures Render(f).library == Render(g).library
  {
  }
}
