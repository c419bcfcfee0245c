/** The verdict layer of the dashboard: the RSI threshold map with its
    advisory text, the "Extreme"/"Normal" status label, and the sign-based
    reading of the MACD line. Readings are modelled as exact reals. */
module Signals {

  /** RSI above this is overbought (exclusive bound). */
  const OverboughtAbove: real := 70.0
  /** RSI below this is oversold (exclusive bound). */
  const OversoldBelow: real := 30.0

  datatype Verdict = Overbought | Oversold | Neutral

  /** The three-way threshold map: "> 70" is tested first, then "< 30",
      and everything else falls through to Neutral. */
  function Classify(rsi: real): (v: Verdict)
    ensures v == Overbought <==> rsi > OverboughtAbove
    ensures v == Oversold <==> rsi < OversoldBelow
    ensures v == Neutral <==> OversoldBelow <= rsi <= OverboughtAbove
  {
    if rsi > OverboughtAbove then Overbought
    else if rsi < OversoldBelow then Oversold
    else Neutral
  }

  /** The same map with the two threshold tests in the opposite order;
      used to show that the order of the checks does not matter. */
  function ClassifyOversoldFirst(rsi: real): (v: Verdict)
  {
    if rsi < OversoldBelow then Oversold
    else if rsi > OverboughtAbove then Overbought
    else Neutral
  }

  const OverboughtHeading: string := "\U{1F6A8} OVERBOUGHT"
  const OversoldHeading: string := "\U{2705} OVERSOLD"
  const NeutralHeading: string := "\U{1F7E1} NEUTRAL"

  /** The alert heading shown for a verdict. */
  function Heading(v: Verdict): (h: string)
    ensures h == OverboughtHeading <==> v == Overbought
    ensures h == OversoldHeading <==> v == Oversold
    ensures h == NeutralHeading <==> v == Neutral
  {
    match v
    case Overbought => OverboughtHeading
    case Oversold => OversoldHeading
    case Neutral => NeutralHeading
  }

  const OverboughtAdvice: string :=
    "The market is overheated. High risk of a 'Bull Trap'. Consider waiting for a dip."
  const OversoldAdvice: string :=
    "Sellers are exhausted. This is often a 'Value Zone' for a bounce."
  const NeutralAdvice: string :=
    "No extreme pressure. The trend is likely to continue its current path."

  /** The fixed advisory sentence that accompanies each verdict. */
  function Advice(v: Verdict): (a: string)
    ensures a == OverboughtAdvice <==> v == Overbought
    ensures a == OversoldAdvice <==> v == Oversold
    ensures a == NeutralAdvice <==> v == Neutral
  {
    match v
    case Overbought => OverboughtAdvice
    case Oversold => OversoldAdvice
    case Neutral => NeutralAdvice
  }

  const Extreme: string := "Extreme"
  const Normal: string := "Normal"

  /** The status label of the RSI tab, written independently of Classify
      as one disjunction of the two thresholds. Its contract is the
      agreement between the two checks. */
  function Status(rsi: real): (s: string)
    ensures s == Extreme <==> Classify(rsi) != Neutral
    ensures s == Normal <==> Classify(rsi) == Neutral
  {
    if rsi > OverboughtAbove || rsi < OversoldBelow then Extreme else Normal
  }

  const BullishReading: string :=
    "Short-term momentum is stronger than long-term. Bullish."
  const BearishReading: string :=
    "Momentum is fading. Bearish."

  /** The sentence shown for the latest MACD line value; zero and every
      negative value read as bearish. */
  function Interpretation(macd: real): (t: string)
    ensures t == BullishReading <==> macd > 0.0
    ensures t == BearishReading <==> macd <= 0.0
  {
    if macd > 0.0 then BullishReading else BearishReading
  }

  // ----- Properties -----

  lemma OverboughtHasBullTrapAdvice(rsi: real)
    requires rsi > OverboughtAbove
    ensures Classify(rsi) == Overbought
    ensures Advice(Classify(rsi)) == OverboughtAdvice
    ensures Heading(Classify(rsi)) == OverboughtHeading
  {
  }

  lemma OversoldHasValueZoneAdvice(rsi: real)
    requires rsi < OversoldBelow
    ensures Classify(rsi) == Oversold
    ensures Advice(Classify(rsi)) == OversoldAdvice
    ensures Heading(Classify(rsi)) == OversoldHeading
  {
  }

  /** Both bounds are exclusive: exactly 70 and exactly 30 are Neutral. */
  lemma BoundariesAreNeutral()
    ensures Classify(70.0) == Neutral && Classify(30.0) == Neutral
    ensures Status(70.0) == Normal && Status(30.0) == Normal
    ensures Classify(70.0 + 1.0 / 100.0) == Overbought
    ensures Classify(30.0 - 1.0 / 100.0) == Oversold
  {
  }

  /** The range of readings each verdict covers. */
  predicate InRange(v: Verdict, rsi: real)
  {
    match v
    case Overbought => rsi > OverboughtAbove
    case Oversold => rsi < OversoldBelow
    case Neutral => OversoldBelow <= rsi <= OverboughtAbove
  }

  /** The classifier is total and its verdict is the only one whose range
      holds the reading: the three ranges partition the reals. */
  lemma ExactlyOneVerdict(rsi: real)
    ensures InRange(Classify(rsi), rsi)
    ensures forall v :: InRange(v, rsi) ==> v == Classify(rsi)
  {
  }

  /** The two threshold ranges are disjoint, so testing them in either
      order gives the same verdict. */
  lemma CheckOrderIrrelevant(rsi: real)
    ensures Classify(rsi) == ClassifyOversoldFirst(rsi)
  {
  }

  /** Different verdicts never share advisory text or headings. */
  lemma AdviceDistinguishesVerdicts(v: Verdict, w: Verdict)
    ensures Advice(v) == Advice(w) <==> v == w
    ensures Heading(v) == Heading(w) <==> v == w
  {
  }

  /** Zero is bearish, as is every negative reading. */
  lemma ZeroMacdIsBearish(macd: real)
    requires macd <= 0.0
    ensures Interpretation(macd) == BearishReading
  {
  }
}
