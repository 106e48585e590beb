/** Vocabulary shared by the rule engines and the monitoring engine. */
module Common {
  import opened Wrappers

  /** Milliseconds, the unit of every timestamp. */
  const MinuteMs: int := 60 * 1000
  const HourMs: int := 60 * MinuteMs
  const DayMs: int := 24 * HourMs

  /** The CSS class a result is highlighted with. */
  datatype Severity = Info | Warning | Therapeutic | Critical

  /** The two protocol families whose readings are kept apart. */
  datatype Family = DkaHhs | NonDka

  /** The calculators, as named in the calculation history. */
  datatype Protocol =
    | HeparinProtocol
    | NonDkaInitialRate
    | NonDkaAdjustment
    | DkaBolus
    | DkaPhase1Initiation
    | DkaPhase1Continuation
    | DkaTransition
    | DkaPhase2

  /** What a completed calculation passes to `addMonitoringData`: a glucose and/or a rate, either possibly null. */
  datatype ReadingRecord = ReadingRecord(family: Family, bg: Option<real>, rate: Option<real>)

  /**
   * Everything a calculator does once its input is valid: the decision it renders, whether it is
   * gated behind a confirmation dialog, the protocol name and critical mark of its history entry,
   * and the readings it records (if any).
   */
  datatype Computation<+D> = Computation(
    decision: D,
    needsConfirmation: bool,
    protocol: Protocol,
    historyCritical: bool,
    record: Option<ReadingRecord>)

  function Max(a: real, b: real): (m: real)
    ensures m >= a && m >= b && (m == a || m == b)
  {
    if a >= b then a else b
  }

  function Min(a: real, b: real): (m: real)
    ensures m <= a && m <= b && (m == a || m == b)
  {
    if a <= b then a else b
  }

  /** `Math.round(x * 10) / 10`: round half up to one decimal place. */
  function RoundToTenth(x: real): (r: real)
    ensures x - 1.0 / 20.0 < r <= x + 1.0 / 20.0
    ensures (r * 10.0).Floor as real == r * 10.0
  {
    ((x * 10.0 + 0.5).Floor as real) / 10.0
  }

  /** `Array.prototype.filter`: the elements satisfying `p`, in their original order. */
  function Filter<T>(s: seq<T>, p: T -> bool): (r: seq<T>)
    ensures |r| <= |s|
    ensures forall i :: 0 <= i < |r| ==> r[i] in s && p(r[i])
    ensures forall i :: 0 <= i < |s| && p(s[i]) ==> s[i] in r
  {
    if s == [] then []
    else if p(s[0]) then [s[0]] + Filter(s[1..], p)
    else Filter(s[1..], p)
  }

  /** `Array.prototype.every`. */
  predicate Every<T>(s: seq<T>, p: T -> bool)
  {
    forall i :: 0 <= i < |s| ==> p(s[i])
  }

  /** Filtering distributes over concatenation, so a filter keeps the relative order of what it keeps. */
  lemma {:induction false} FilterAppend<T>(a: seq<T>, b: seq<T>, p: T -> bool)
    ensures Filter(a + b, p) == Filter(a, p) + Filter(b, p)
  {
    if a == [] {
      assert a + b == b;
    } else {
      assert (a + b)[0] == a[0];
      assert (a + b)[1..] == a[1..] + b;
      FilterAppend(a[1..], b, p);
    }
  }

  /** A filter whose predicate holds everywhere keeps everything. */
  lemma {:induction false} FilterAll<T>(s: seq<T>, p: T -> bool)
    requires Every(s, p)
    ensures Filter(s, p) == s
  {
    if s != [] {
      FilterAll(s[1..], p);
    }
  }

  /** A filter whose predicate holds nowhere keeps nothing. */
  lemma {:induction false} FilterNone<T>(s: seq<T>, p: T -> bool)
    requires forall i :: 0 <= i < |s| ==> !p(s[i])
    ensures Filter(s, p) == []
  {
    if s != [] {
      FilterNone(s[1..], p);
    }
  }

  /** Filtering by a stronger predicate after a weaker one is filtering by the stronger one alone. */
  lemma {:induction false} FilterFilter<T>(s: seq<T>, p: T -> bool, q: T -> bool)
    requires forall i :: 0 <= i < |s| && q(s[i]) ==> p(s[i])
    ensures Filter(Filter(s, p), q) == Filter(s, q)
  {
    if s != [] {
      FilterFilter(s[1..], p, q);
    }
  }

  /** When every kept element satisfies `q`, filtering the kept ones by `q` keeps them all. */
  lemma FilterEveryCount<T>(s: seq<T>, p: T -> bool, q: T -> bool)
    requires Every(Filter(s, p), q)
    ensures |Filter(Filter(s, p), q)| == |Filter(s, p)|
  {
    FilterAll(Filter(s, p), q);
  }
}
