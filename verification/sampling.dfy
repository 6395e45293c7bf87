/** The category gate of AiLogger: a category is written when it is not
    disabled and a random draw falls within its logging percentage. The draw
    (`new Random().Next(1, 100)`) is a parameter here. */
module Sampling {
  import opened Text

  /** What `Random.Next(1, 100)` can return: the upper bound is exclusive,
      so the draw is one of 1..99. */
  predicate IsDraw(d: int)
  {
    1 <= d <= 99
  }

  /** AiLogger.InLogThreshold; `draw` is only consulted when the threshold
      is neither 100 nor 0, as the source only draws then. */
  function InLogThreshold(threshold: int, draw: int): bool
  {
    if threshold == 100 then true
    else if threshold == 0 then false
    else draw <= threshold
  }

  /** Thresholds 100 and 0 decide without a draw: any two draws agree. */
  lemma ExtremesIgnoreDraw(d1: int, d2: int)
    ensures InLogThreshold(100, d1) && InLogThreshold(100, d2)
    ensures !InLogThreshold(0, d1) && !InLogThreshold(0, d2)
  {
  }

  /** Because no draw exceeds 99, a threshold of 99 (or anything above it)
      always logs, and a threshold of 0 or below never does. */
  lemma ThresholdBounds(threshold: int, draw: int)
    requires IsDraw(draw)
    ensures threshold >= 99 ==> InLogThreshold(threshold, draw)
    ensures threshold <= 0 ==> !InLogThreshold(threshold, draw)
  {
  }

  /** A higher threshold logs at least every draw a lower one logs. */
  lemma ThresholdMonotone(t1: int, t2: int, draw: int)
    requires IsDraw(draw) && t1 <= t2
    ensures InLogThreshold(t1, draw) ==> InLogThreshold(t2, draw)
  {
  }

  /** How many of the draws 1..n a threshold logs. */
  function LoggedCount(threshold: int, n: nat): nat
  {
    if n == 0 then 0
    else LoggedCount(threshold, n - 1) + (if InLogThreshold(threshold, n) then 1 else 0)
  }

  function Min(a: int, b: int): int
  {
    if a <= b then a else b
  }

  /** Of the draws 1..n, threshold 100 logs all, a threshold of 0 or below
      none, and any other threshold t the first min(t, n). Over the 99
      possible draws a threshold t in 1..99 therefore logs t of 99 equally
      likely outcomes: a share of t/99 rather than t/100. */
  lemma {:induction false} LoggedCountExact(threshold: int, n: nat)
    ensures LoggedCount(threshold, n) ==
      if threshold == 100 then n
      else if threshold <= 0 then 0
      else Min(threshold, n)
    decreases n
  {
    if n > 0 {
      LoggedCountExact(threshold, n - 1);
    }
  }

  /** The outcome of AiLogger.Log: whether the write proceeds, and the
      debug traces it writes on the way. */
  datatype Gate = Gate(pass: bool, traces: seq<string>)

  /** AiLogger.Log for the category named `kind`. A disabled category is
      refused before any draw; otherwise the threshold test decides. With
      debug tracing on, a refusal writes one trace line saying why. */
  function Log(enableDebug: bool, kind: string, disable: bool, threshold: int, draw: int): (g: Gate)
    ensures g.pass <==> !disable && InLogThreshold(threshold, draw)
    ensures g.traces != [] <==> enableDebug && !g.pass
    ensures |g.traces| <= 1
    ensures disable && enableDebug ==>
      g.traces == ["DEBUG: Application Insights " + kind + " not written: Disabled"]
    ensures !disable && !g.pass && enableDebug ==>
      g.traces == ["DEBUG: Application Insights " + kind + " not written: Threshold%: " + IntText(threshold)]
  {
    if disable then
      Gate(false, if enableDebug then ["DEBUG: Application Insights " + kind + " not written: Disabled"] else [])
    else if !InLogThreshold(threshold, draw) then
      Gate(false, if enableDebug
                  then ["DEBUG: Application Insights " + kind + " not written: Threshold%: " + IntText(threshold)]
                  else [])
    else
      Gate(true, [])
  }

  /** A disabled category, or a threshold of 100 or 0, gives the same gate
      whatever the draw: no draw is made. */
  lemma GateWithoutDraw(enableDebug: bool, kind: string, disable: bool, threshold: int, d1: int, d2: int)
    requires disable || threshold == 100 || threshold == 0
    ensures Log(enableDebug, kind, disable, threshold, d1) == Log(enableDebug, kind, disable, threshold, d2)
  {
  }
}
