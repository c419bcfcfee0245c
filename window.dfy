/** The series operations the dashboard relies on: the latest element of a
    column (`iloc[-1]`) and the trailing history window (`tail(k)`). */
module Window {

  /** The number of points shown in the price and RSI history charts. */
  const HistoryLength: nat := 50

  function Min(a: nat, b: nat): nat
  {
    if a <= b then a else b
  }

  /** The most recent element of a non-empty series. */
  function Last<T>(s: seq<T>): (x: T)
    requires |s| > 0
    ensures x in s
    ensures s == s[..|s| - 1] + [x]
  {
    s[|s| - 1]
  }

  /** The last `k` elements of `s`, or all of `s` when it is shorter:
      no padding and no error. */
  function Tail<T>(s: seq<T>, k: nat): (r: seq<T>)
    ensures |r| == Min(k, |s|)
    ensures forall i :: 0 <= i < |r| ==> r[i] == s[|s| - |r| + i]
  {
    s[|s| - Min(k, |s|)..]
  }

  /** The window of a non-empty series under a positive length ends with
      the series' latest element. */
  lemma TailEndsWithLast<T>(s: seq<T>, k: nat)
    requires |s| > 0 && k > 0
    ensures |Tail(s, k)| > 0 && Last(Tail(s, k)) == Last(s)
  {
  }

  /** The window is what remains of the series after dropping its oldest
      points, so prefix and window together give back the series. */
  lemma TailIsSuffix<T>(s: seq<T>, k: nat)
    ensures s == s[..|s| - |Tail(s, k)|] + Tail(s, k)
  {
  }

  /** A window at least as long as the series is the whole series. */
  lemma TailOfShortSeries<T>(s: seq<T>, k: nat)
    requires |s| <= k
    ensures Tail(s, k) == s
  {
  }

  /** When one more point arrives, the window slides by one: it gains the
      new point at the end and, once full, drops its oldest point. */
  lemma TailSlides<T>(s: seq<T>, x: T, k: nat)
    requires k > 0
    ensures Tail(s + [x], k)
            == (if |Tail(s, k)| == k then Tail(s, k)[1..] else Tail(s, k)) + [x]
  {
  }
}
