/**
 * The data behind the trend chart: the readings of a recent time frame gathered into points, each
 * rate reading written into the first point within a minute of it, and the points ordered by time.
 */
module Trend {
  import opened Wrappers
  import opened Common
  import opened Monitoring

  /** One point of the chart: a glucose and/or a rate at one time, tagged with the family that made it. */
  datatype ChartPoint = ChartPoint(timestamp: int, bg: Option<real>, rate: Option<real>, family: Family)

  /** A rate reading joins a point less than one minute away from it. */
  const ProximityMs: int := 60000

  predicate Near(p: ChartPoint, r: Reading)
  {
    -ProximityMs < p.timestamp - r.timestamp < ProximityMs
  }

  /** `allData.find(...)`: the index of the first point near the reading. */
  function FindNear(points: seq<ChartPoint>, r: Reading): (k: Option<nat>)
    ensures k.Some? ==> k.value < |points| && Near(points[k.value], r)
    ensures k.Some? ==> forall j :: 0 <= j < k.value ==> !Near(points[j], r)
    ensures k.None? <==> forall j :: 0 <= j < |points| ==> !Near(points[j], r)
  {
    if points == [] then None
    else if Near(points[0], r) then Some(0)
    else match FindNear(points[1..], r)
      case None => None
      case Some(k) => Some(k + 1)
  }

  /** `q` keeps every point of `p` in place, with its time, glucose and family, and keeps a rate once set. */
  predicate Extends(p: seq<ChartPoint>, q: seq<ChartPoint>)
  {
    && |p| <= |q|
    && forall i :: 0 <= i < |p| ==>
         q[i].timestamp == p[i].timestamp && q[i].bg == p[i].bg && q[i].family == p[i].family
         && (p[i].rate.Some? ==> q[i].rate.Some?)
  }

  lemma ExtendsTransitive(p: seq<ChartPoint>, q: seq<ChartPoint>, r: seq<ChartPoint>)
    requires Extends(p, q) && Extends(q, r)
    ensures Extends(p, r)
  {
  }

  /**
   * One rate reading merged into the points: its value overwrites the rate of the first point near
   * it, or, when there is none, it becomes a new rate-only point at the end.
   */
  function MergeRate(points: seq<ChartPoint>, r: Reading, family: Family): (q: seq<ChartPoint>)
    ensures Extends(points, q) && |q| <= |points| + 1
    ensures forall i :: 0 <= i < |q| && q[i].rate != (if i < |points| then points[i].rate else None) ==>
      Near(q[i], r) && q[i].rate == Some(r.value)
    ensures forall i :: |points| <= i < |q| ==> q[i] == ChartPoint(r.timestamp, None, Some(r.value), family)
    ensures |q| == |points| <==> exists i :: 0 <= i < |points| && Near(points[i], r)
    ensures exists i :: 0 <= i < |q| && Near(q[i], r) && q[i].rate == Some(r.value)
    ensures FindNear(points, r).Some? ==>
      var k := FindNear(points, r).value;
      q == points[k := points[k].(rate := Some(r.value))]
    ensures FindNear(points, r).None? ==> q == points + [ChartPoint(r.timestamp, None, Some(r.value), family)]
  {
    match FindNear(points, r)
    case Some(k) =>
      var q := points[k := points[k].(rate := Some(r.value))];
      assert Near(q[k], r) && q[k].rate == Some(r.value);
      q
    case None =>
      var q := points + [ChartPoint(r.timestamp, None, Some(r.value), family)];
      assert Near(q[|points|], r);
      q
  }

  /** The glucose points one list contributes: a point per reading in the time frame, in list order. */
  function BgPoints(s: seq<Reading>, cutoff: int, family: Family): (r: seq<ChartPoint>)
    ensures forall i :: 0 <= i < |r| ==>
      r[i].timestamp >= cutoff && r[i].bg.Some? && r[i].rate.None? && r[i].family == family
      && Reading(r[i].timestamp, r[i].bg.value) in s
    ensures forall j :: 0 <= j < |s| && s[j].timestamp >= cutoff ==>
      ChartPoint(s[j].timestamp, Some(s[j].value), None, family) in r
  {
    if s == [] then []
    else
      var last := s[|s| - 1];
      var init := BgPoints(s[..|s| - 1], cutoff, family);
      assert forall j :: 0 <= j < |s| - 1 ==> s[..|s| - 1][j] == s[j];
      init + (if last.timestamp >= cutoff then [ChartPoint(last.timestamp, Some(last.value), None, family)] else [])
  }

  /** The readings the chart keeps: those at or after the start of the time frame. */
  function AtOrAfter(cutoff: int): Reading -> bool
  {
    (x: Reading) => x.timestamp >= cutoff
  }

  /** The glucose point of one reading. */
  function BgPoint(x: Reading, family: Family): ChartPoint
  {
    ChartPoint(x.timestamp, Some(x.value), None, family)
  }

  /** The glucose points of a list of readings, one for each, in order. */
  function BgPointsOf(f: seq<Reading>, family: Family): seq<ChartPoint>
  {
    seq(|f|, i requires 0 <= i < |f| => BgPoint(f[i], family))
  }

  lemma BgPointsOfAppend(a: seq<Reading>, b: seq<Reading>, family: Family)
    ensures BgPointsOf(a + b, family) == BgPointsOf(a, family) + BgPointsOf(b, family)
  {
  }

  /** Exactly one glucose point per reading in the time frame, in the order of the list. */
  lemma {:induction false} BgPointsInOrder(s: seq<Reading>, cutoff: int, family: Family)
    ensures BgPoints(s, cutoff, family) == BgPointsOf(Filter(s, AtOrAfter(cutoff)), family)
  {
    if s != [] {
      var init := s[..|s| - 1];
      var last := s[|s| - 1];
      var tail := Filter([last], AtOrAfter(cutoff));
      BgPointsInOrder(init, cutoff, family);
      assert s == init + [last];
      FilterAppend(init, [last], AtOrAfter(cutoff));
      BgPointsOfAppend(Filter(init, AtOrAfter(cutoff)), tail, family);
      if last.timestamp >= cutoff {
        assert tail == [last];
        assert BgPointsOf(tail, family) == [BgPoint(last, family)];
      } else {
        assert tail == [];
      }
    }
  }

  /** The rate readings of one list in the time frame merged one after another, in list order. */
  function MergeRates(points: seq<ChartPoint>, s: seq<Reading>, cutoff: int, family: Family): seq<ChartPoint>
  {
    if s == [] then points
    else
      var init := MergeRates(points, s[..|s| - 1], cutoff, family);
      var last := s[|s| - 1];
      if last.timestamp >= cutoff then MergeRate(init, last, family) else init
  }

  /** The points before sorting: DKA glucose, DKA rates, non-DKA glucose, then non-DKA rates. */
  function MergedPoints(dkaBg: seq<Reading>, dkaRates: seq<Reading>, nonDkaBg: seq<Reading>, nonDkaRates: seq<Reading>,
                        cutoff: int): seq<ChartPoint>
  {
    var dka := MergeRates(BgPoints(dkaBg, cutoff, DkaHhs), dkaRates, cutoff, DkaHhs);
    MergeRates(dka + BgPoints(nonDkaBg, cutoff, NonDka), nonDkaRates, cutoff, NonDka)
  }

  // ---------------------------------------------------------------- sorting

  predicate SortedByTime(s: seq<ChartPoint>)
  {
    forall i, j :: 0 <= i < j < |s| ==> s[i].timestamp <= s[j].timestamp
  }

  /** Insert `x` after every point of `t` that is not later than it. */
  function InsertByTime(x: ChartPoint, t: seq<ChartPoint>): (r: seq<ChartPoint>)
    ensures multiset(r) == multiset(t) + multiset{x}
    ensures r[0] == x || (t != [] && r[0] == t[0])
  {
    if t == [] then [x]
    else if x.timestamp < t[0].timestamp then [x] + t
    else
      assert t == [t[0]] + t[1..];
      [t[0]] + InsertByTime(x, t[1..])
  }

  lemma {:induction false} InsertKeepsSorted(x: ChartPoint, t: seq<ChartPoint>)
    requires SortedByTime(t)
    ensures SortedByTime(InsertByTime(x, t))
  {
    if t != [] && x.timestamp >= t[0].timestamp {
      InsertKeepsSorted(x, t[1..]);
      var rest := InsertByTime(x, t[1..]);
      assert rest[0].timestamp >= t[0].timestamp;
      assert InsertByTime(x, t) == [t[0]] + rest;
    }
  }

  /**
   * `allData.sort((a, b) => a.timestamp - b.timestamp)`: a sort by timestamp, as an insertion sort
   * that inserts each point after the earlier points with the same time. The order it leaves among
   * points with equal times is not part of the contract.
   */
  function SortByTime(s: seq<ChartPoint>): (r: seq<ChartPoint>)
    ensures multiset(r) == multiset(s)
    ensures SortedByTime(r)
  {
    if s == [] then []
    else
      assert s == s[..|s| - 1] + [s[|s| - 1]];
      InsertKeepsSorted(s[|s| - 1], SortByTime(s[..|s| - 1]));
      InsertByTime(s[|s| - 1], SortByTime(s[..|s| - 1]))
  }

  /** The chart series of a time frame starting at `cutoff`. */
  function ChartSeries(dkaBg: seq<Reading>, dkaRates: seq<Reading>, nonDkaBg: seq<Reading>, nonDkaRates: seq<Reading>,
                       cutoff: int): seq<ChartPoint>
  {
    SortByTime(MergedPoints(dkaBg, dkaRates, nonDkaBg, nonDkaRates, cutoff))
  }

  // ---------------------------------------------------------------- what the series shows

  predicate InFrame(points: seq<ChartPoint>, cutoff: int)
  {
    forall p :: p in points ==> p.timestamp >= cutoff
  }

  /** Every glucose on the chart is a reading of the point's own family. */
  predicate BgSound(points: seq<ChartPoint>, dkaBg: seq<Reading>, nonDkaBg: seq<Reading>)
  {
    forall p :: p in points && p.bg.Some? ==>
      Reading(p.timestamp, p.bg.value) in (if p.family == DkaHhs then dkaBg else nonDkaBg)
  }

  /** The reading has a point of its own, at its time, with its value. */
  predicate BgShown(points: seq<ChartPoint>, x: Reading, family: Family)
  {
    exists p :: p in points && p.timestamp == x.timestamp && p.bg == Some(x.value) && p.family == family
  }

  /** Every rate on the chart is the value of a rate reading in the frame less than a minute away. */
  predicate RatesSound(points: seq<ChartPoint>, rates: seq<Reading>, cutoff: int)
  {
    forall p :: p in points && p.rate.Some? ==>
      exists x :: x in rates && x.timestamp >= cutoff && Near(p, x) && x.value == p.rate.value
  }

  /** Some point less than a minute from the reading carries a rate. */
  predicate RateShown(points: seq<ChartPoint>, x: Reading)
  {
    exists p :: p in points && Near(p, x) && p.rate.Some?
  }

  lemma ExtendsKeepsShown(p: seq<ChartPoint>, q: seq<ChartPoint>, x: Reading, family: Family)
    requires Extends(p, q)
    ensures BgShown(p, x, family) ==> BgShown(q, x, family)
    ensures RateShown(p, x) ==> RateShown(q, x)
  {
    if BgShown(p, x, family) {
      var a :| a in p && a.timestamp == x.timestamp && a.bg == Some(x.value) && a.family == family;
      var i :| 0 <= i < |p| && p[i] == a;
      assert q[i] in q;
    }
    if RateShown(p, x) {
      var a :| a in p && Near(a, x) && a.rate.Some?;
      var i :| 0 <= i < |p| && p[i] == a;
      assert q[i] in q;
    }
  }

  /** One merged rate keeps the points in the frame and sound, and shows itself. */
  lemma MergeRateStep(q: seq<ChartPoint>, last: Reading, cutoff: int, family: Family, rates: seq<Reading>)
    requires last in rates && last.timestamp >= cutoff
    requires RatesSound(q, rates, cutoff) && InFrame(q, cutoff)
    ensures InFrame(MergeRate(q, last, family), cutoff)
    ensures RatesSound(MergeRate(q, last, family), rates, cutoff)
    ensures RateShown(MergeRate(q, last, family), last)
  {
    var q' := MergeRate(q, last, family);
    forall p | p in q' ensures p.timestamp >= cutoff {
      var i :| 0 <= i < |q'| && q'[i] == p;
      if i < |q| { assert q[i] in q; }
    }
    forall p | p in q' && p.rate.Some?
      ensures exists x :: x in rates && x.timestamp >= cutoff && Near(p, x) && x.value == p.rate.value
    {
      var i :| 0 <= i < |q'| && q'[i] == p;
      if i < |q| && q'[i].rate == q[i].rate {
        assert q[i] in q;
      } else {
        assert Near(p, last) && p.rate == Some(last.value);
      }
    }
    var i :| 0 <= i < |q'| && Near(q'[i], last) && q'[i].rate == Some(last.value);
    assert q'[i] in q';
  }

  /** Merging rates keeps the earlier points and adds only rate-only points. */
  lemma {:induction false} MergeRatesExtends(points: seq<ChartPoint>, s: seq<Reading>, cutoff: int, family: Family)
    ensures Extends(points, MergeRates(points, s, cutoff, family))
    ensures forall i :: |points| <= i < |MergeRates(points, s, cutoff, family)| ==>
      MergeRates(points, s, cutoff, family)[i].bg.None?
  {
    if s != [] {
      var init := s[..|s| - 1];
      MergeRatesExtends(points, init, cutoff, family);
      var q := MergeRates(points, init, cutoff, family);
      if s[|s| - 1].timestamp >= cutoff {
        ExtendsTransitive(points, q, MergeRate(q, s[|s| - 1], family));
      }
    }
  }

  /** Merging rates keeps the points in the frame and sound, and shows every rate of the frame. */
  lemma {:induction false} MergeRatesFacts(points: seq<ChartPoint>, s: seq<Reading>, cutoff: int, family: Family,
                                           rates: seq<Reading>)
    requires forall j :: 0 <= j < |s| ==> s[j] in rates
    requires RatesSound(points, rates, cutoff) && InFrame(points, cutoff)
    ensures InFrame(MergeRates(points, s, cutoff, family), cutoff)
    ensures RatesSound(MergeRates(points, s, cutoff, family), rates, cutoff)
    ensures forall j :: 0 <= j < |s| && s[j].timestamp >= cutoff ==> RateShown(MergeRates(points, s, cutoff, family), s[j])
  {
    if s != [] {
      var init := s[..|s| - 1];
      var last := s[|s| - 1];
      assert forall j :: 0 <= j < |init| ==> init[j] == s[j];
      MergeRatesFacts(points, init, cutoff, family, rates);
      var q := MergeRates(points, init, cutoff, family);
      if last.timestamp >= cutoff {
        var q' := MergeRate(q, last, family);
        MergeRateStep(q, last, cutoff, family, rates);
        forall j | 0 <= j < |s| && s[j].timestamp >= cutoff ensures RateShown(q', s[j]) {
          if j < |init| {
            ExtendsKeepsShown(q, q', s[j], family);
          }
        }
      } else {
        forall j | 0 <= j < |s| && s[j].timestamp >= cutoff ensures RateShown(q, s[j]) {
          assert j < |init|;
        }
      }
    }
  }

  /** The two merge stages: both keep their input points and add only rate-only points in the frame. */
  lemma MergeStages(dkaBg: seq<Reading>, dkaRates: seq<Reading>, nonDkaBg: seq<Reading>, nonDkaRates: seq<Reading>,
                    cutoff: int)
    ensures var b1 := BgPoints(dkaBg, cutoff, DkaHhs);
      var dka := MergeRates(b1, dkaRates, cutoff, DkaHhs);
      var both := dka + BgPoints(nonDkaBg, cutoff, NonDka);
      var m := MergeRates(both, nonDkaRates, cutoff, NonDka);
      && m == MergedPoints(dkaBg, dkaRates, nonDkaBg, nonDkaRates, cutoff)
      && Extends(b1, dka) && (forall i :: |b1| <= i < |dka| ==> dka[i].bg.None?)
      && Extends(both, m) && (forall i :: |both| <= i < |m| ==> m[i].bg.None?)
      && InFrame(m, cutoff)
      && RatesSound(m, dkaRates + nonDkaRates, cutoff)
      && (forall j :: 0 <= j < |dkaRates| && dkaRates[j].timestamp >= cutoff ==> RateShown(dka, dkaRates[j]))
      && (forall j :: 0 <= j < |nonDkaRates| && nonDkaRates[j].timestamp >= cutoff ==> RateShown(m, nonDkaRates[j]))
  {
    var rates := dkaRates + nonDkaRates;
    assert forall j :: 0 <= j < |dkaRates| ==> dkaRates[j] == rates[j];
    assert forall j :: 0 <= j < |nonDkaRates| ==> nonDkaRates[j] == rates[|dkaRates| + j];
    var b1 := BgPoints(dkaBg, cutoff, DkaHhs);
    MergeRatesFacts(b1, dkaRates, cutoff, DkaHhs, rates);
    MergeRatesExtends(b1, dkaRates, cutoff, DkaHhs);
    var dka := MergeRates(b1, dkaRates, cutoff, DkaHhs);
    var both := dka + BgPoints(nonDkaBg, cutoff, NonDka);
    assert InFrame(both, cutoff);
    MergeRatesFacts(both, nonDkaRates, cutoff, NonDka, rates);
    MergeRatesExtends(both, nonDkaRates, cutoff, NonDka);
  }

  /** A merge that only adds rate-only points keeps every glucose sound. */
  lemma BgSoundExtends(p: seq<ChartPoint>, q: seq<ChartPoint>, dkaBg: seq<Reading>, nonDkaBg: seq<Reading>)
    requires Extends(p, q) && forall i :: |p| <= i < |q| ==> q[i].bg.None?
    requires BgSound(p, dkaBg, nonDkaBg)
    ensures BgSound(q, dkaBg, nonDkaBg)
  {
    forall x | x in q && x.bg.Some?
      ensures Reading(x.timestamp, x.bg.value) in (if x.family == DkaHhs then dkaBg else nonDkaBg)
    {
      var i :| 0 <= i < |q| && q[i] == x;
      assert p[i] in p;
    }
  }

  /** The glucose points of both lists are sound. */
  lemma BgPointsSound(dkaBg: seq<Reading>, nonDkaBg: seq<Reading>, cutoff: int)
    ensures BgSound(BgPoints(dkaBg, cutoff, DkaHhs), dkaBg, nonDkaBg)
    ensures BgSound(BgPoints(nonDkaBg, cutoff, NonDka), dkaBg, nonDkaBg)
  {
    var a := BgPoints(dkaBg, cutoff, DkaHhs);
    var b := BgPoints(nonDkaBg, cutoff, NonDka);
    forall x | x in a ensures Reading(x.timestamp, x.bg.value) in dkaBg && x.family == DkaHhs {
      var i :| 0 <= i < |a| && a[i] == x;
    }
    forall x | x in b ensures Reading(x.timestamp, x.bg.value) in nonDkaBg && x.family == NonDka {
      var i :| 0 <= i < |b| && b[i] == x;
    }
  }

  /** Every glucose on the chart is one of its family's readings. */
  lemma MergedBgSound(dkaBg: seq<Reading>, dkaRates: seq<Reading>, nonDkaBg: seq<Reading>, nonDkaRates: seq<Reading>,
                      cutoff: int)
    ensures BgSound(MergedPoints(dkaBg, dkaRates, nonDkaBg, nonDkaRates, cutoff), dkaBg, nonDkaBg)
  {
    MergeStages(dkaBg, dkaRates, nonDkaBg, nonDkaRates, cutoff);
    BgPointsSound(dkaBg, nonDkaBg, cutoff);
    var b1 := BgPoints(dkaBg, cutoff, DkaHhs);
    var dka := MergeRates(b1, dkaRates, cutoff, DkaHhs);
    var b2 := BgPoints(nonDkaBg, cutoff, NonDka);
    var both := dka + b2;
    BgSoundExtends(b1, dka, dkaBg, nonDkaBg);
    assert BgSound(both, dkaBg, nonDkaBg) by {
      forall x | x in both && x.bg.Some?
        ensures Reading(x.timestamp, x.bg.value) in (if x.family == DkaHhs then dkaBg else nonDkaBg)
      {
        if x !in dka { assert x in b2; }
      }
    }
    BgSoundExtends(both, MergedPoints(dkaBg, dkaRates, nonDkaBg, nonDkaRates, cutoff), dkaBg, nonDkaBg);
  }

  /** Every glucose reading of the frame has its own point. */
  lemma MergedBgShown(dkaBg: seq<Reading>, dkaRates: seq<Reading>, nonDkaBg: seq<Reading>, nonDkaRates: seq<Reading>,
                      cutoff: int)
    ensures var m := MergedPoints(dkaBg, dkaRates, nonDkaBg, nonDkaRates, cutoff);
      && (forall j :: 0 <= j < |dkaBg| && dkaBg[j].timestamp >= cutoff ==> BgShown(m, dkaBg[j], DkaHhs))
      && (forall j :: 0 <= j < |nonDkaBg| && nonDkaBg[j].timestamp >= cutoff ==> BgShown(m, nonDkaBg[j], NonDka))
  {
    MergeStages(dkaBg, dkaRates, nonDkaBg, nonDkaRates, cutoff);
    var b1 := BgPoints(dkaBg, cutoff, DkaHhs);
    var dka := MergeRates(b1, dkaRates, cutoff, DkaHhs);
    var b2 := BgPoints(nonDkaBg, cutoff, NonDka);
    var both := dka + b2;
    var m := MergedPoints(dkaBg, dkaRates, nonDkaBg, nonDkaRates, cutoff);
    forall j | 0 <= j < |dkaBg| && dkaBg[j].timestamp >= cutoff ensures BgShown(m, dkaBg[j], DkaHhs) {
      var pt := ChartPoint(dkaBg[j].timestamp, Some(dkaBg[j].value), None, DkaHhs);
      var i :| 0 <= i < |b1| && b1[i] == pt;
      assert both[i] == dka[i];
      assert both[i] in both;
      ExtendsKeepsShown(both, m, dkaBg[j], DkaHhs);
    }
    forall j | 0 <= j < |nonDkaBg| && nonDkaBg[j].timestamp >= cutoff ensures BgShown(m, nonDkaBg[j], NonDka) {
      var pt := ChartPoint(nonDkaBg[j].timestamp, Some(nonDkaBg[j].value), None, NonDka);
      var i :| 0 <= i < |b2| && b2[i] == pt;
      assert both[|dka| + i] == pt;
      assert both[|dka| + i] in both;
      ExtendsKeepsShown(both, m, nonDkaBg[j], NonDka);
    }
  }

  /** Every rate reading of the frame shows near its time, including the DKA ones merged first. */
  lemma MergedRatesShown(dkaBg: seq<Reading>, dkaRates: seq<Reading>, nonDkaBg: seq<Reading>, nonDkaRates: seq<Reading>,
                         cutoff: int)
    ensures var m := MergedPoints(dkaBg, dkaRates, nonDkaBg, nonDkaRates, cutoff);
      && (forall j :: 0 <= j < |dkaRates| && dkaRates[j].timestamp >= cutoff ==> RateShown(m, dkaRates[j]))
      && (forall j :: 0 <= j < |nonDkaRates| && nonDkaRates[j].timestamp >= cutoff ==> RateShown(m, nonDkaRates[j]))
  {
    MergeStages(dkaBg, dkaRates, nonDkaBg, nonDkaRates, cutoff);
    var dka := MergeRates(BgPoints(dkaBg, cutoff, DkaHhs), dkaRates, cutoff, DkaHhs);
    var both := dka + BgPoints(nonDkaBg, cutoff, NonDka);
    var m := MergedPoints(dkaBg, dkaRates, nonDkaBg, nonDkaRates, cutoff);
    forall j | 0 <= j < |dkaRates| && dkaRates[j].timestamp >= cutoff ensures RateShown(m, dkaRates[j]) {
      var p :| p in dka && Near(p, dkaRates[j]) && p.rate.Some?;
      assert p in both;
      ExtendsKeepsShown(both, m, dkaRates[j], DkaHhs);
    }
  }

  /**
   * The series the chart is drawn from: ordered by time, holding exactly the merged points, all in
   * the time frame; every glucose reading of the frame has its point, every rate on the chart is a
   * rate reading of the frame within a minute, and every rate reading of the frame shows near its time.
   */
  lemma ChartSeriesFacts(dkaBg: seq<Reading>, dkaRates: seq<Reading>, nonDkaBg: seq<Reading>, nonDkaRates: seq<Reading>,
                         cutoff: int)
    ensures var s := ChartSeries(dkaBg, dkaRates, nonDkaBg, nonDkaRates, cutoff);
      && SortedByTime(s)
      && multiset(s) == multiset(MergedPoints(dkaBg, dkaRates, nonDkaBg, nonDkaRates, cutoff))
      && InFrame(s, cutoff)
      && BgSound(s, dkaBg, nonDkaBg)
      && (forall j :: 0 <= j < |dkaBg| && dkaBg[j].timestamp >= cutoff ==> BgShown(s, dkaBg[j], DkaHhs))
      && (forall j :: 0 <= j < |nonDkaBg| && nonDkaBg[j].timestamp >= cutoff ==> BgShown(s, nonDkaBg[j], NonDka))
      && RatesSound(s, dkaRates + nonDkaRates, cutoff)
      && (forall j :: 0 <= j < |dkaRates| && dkaRates[j].timestamp >= cutoff ==> RateShown(s, dkaRates[j]))
      && (forall j :: 0 <= j < |nonDkaRates| && nonDkaRates[j].timestamp >= cutoff ==> RateShown(s, nonDkaRates[j]))
  {
    var m := MergedPoints(dkaBg, dkaRates, nonDkaBg, nonDkaRates, cutoff);
    var s := ChartSeries(dkaBg, dkaRates, nonDkaBg, nonDkaRates, cutoff);
    MergeStages(dkaBg, dkaRates, nonDkaBg, nonDkaRates, cutoff);
    MergedBgSound(dkaBg, dkaRates, nonDkaBg, nonDkaRates, cutoff);
    MergedBgShown(dkaBg, dkaRates, nonDkaBg, nonDkaRates, cutoff);
    MergedRatesShown(dkaBg, dkaRates, nonDkaBg, nonDkaRates, cutoff);
    assert forall p :: p in s <==> p in m by {
      forall p ensures p in s <==> p in m {
        assert p in s <==> p in multiset(s);
        assert p in m <==> p in multiset(m);
      }
    }
  }

  /** A non-DKA rate can land on a DKA glucose point: the candidates are all points gathered so far. */
  lemma RateJoinsOtherFamily()
    ensures MergedPoints([Reading(0, 300.0)], [], [], [Reading(30000, 1.5)], 0)
         == [ChartPoint(0, Some(300.0), Some(1.5), DkaHhs)]
  {
    var b := BgPoints([Reading(0, 300.0)], 0, DkaHhs);
    assert b == [ChartPoint(0, Some(300.0), None, DkaHhs)];
    assert MergeRates(b, [], 0, DkaHhs) == b;
    assert BgPoints([], 0, NonDka) == [];
    var s := [Reading(30000, 1.5)];
    assert s[..0] == [];
    assert b + [] == b;
    assert MergeRates(b, s, 0, NonDka) == MergeRate(b, Reading(30000, 1.5), NonDka);
    assert Near(b[0], Reading(30000, 1.5));
    assert FindNear(b, Reading(30000, 1.5)) == Some(0);
  }

  /** The glucose points of a prefix one reading longer. */
  lemma BgPointsStep(s: seq<Reading>, i: nat, cutoff: int, family: Family)
    requires i < |s|
    ensures BgPoints(s[..i + 1], cutoff, family) == BgPoints(s[..i], cutoff, family)
      + (if s[i].timestamp >= cutoff then [ChartPoint(s[i].timestamp, Some(s[i].value), None, family)] else [])
  {
    var t := s[..i + 1];
    assert t[..|t| - 1] == s[..i];
  }

  /** The merged rates of a prefix one reading longer. */
  lemma MergeRatesStep(points: seq<ChartPoint>, s: seq<Reading>, i: nat, cutoff: int, family: Family)
    requires i < |s|
    ensures MergeRates(points, s[..i + 1], cutoff, family) ==
      var q := MergeRates(points, s[..i], cutoff, family);
      if s[i].timestamp >= cutoff then MergeRate(q, s[i], family) else q
  {
    var t := s[..i + 1];
    assert t[..|t| - 1] == s[..i];
  }

  /** One `forEach` over a glucose list: push a point for every reading in the time frame. */
  method PushBgPoints(all: seq<ChartPoint>, s: seq<Reading>, cutoff: int, family: Family) returns (r: seq<ChartPoint>)
    ensures r == all + BgPoints(s, cutoff, family)
  {
    r := all;
    for i := 0 to |s|
      invariant r == all + BgPoints(s[..i], cutoff, family)
    {
      var reading := s[i];
      BgPointsStep(s, i, cutoff, family);
      if reading.timestamp >= cutoff {
        r := r + [ChartPoint(reading.timestamp, Some(reading.value), None, family)];
      }
    }
    assert s[..|s|] == s;
  }

  /** One `forEach` over a rate list: join each rate in the time frame to a near point, or push a new one. */
  method PushRates(all: seq<ChartPoint>, s: seq<Reading>, cutoff: int, family: Family) returns (r: seq<ChartPoint>)
    ensures r == MergeRates(all, s, cutoff, family)
  {
    r := all;
    for i := 0 to |s|
      invariant r == MergeRates(all, s[..i], cutoff, family)
    {
      var reading := s[i];
      MergeRatesStep(all, s, i, cutoff, family);
      if reading.timestamp >= cutoff {
        var existing := FindNear(r, reading);
        if existing.Some? {
          r := r[existing.value := r[existing.value].(rate := Some(reading.value))];
        } else {
          r := r + [ChartPoint(reading.timestamp, None, Some(reading.value), family)];
        }
      }
    }
    assert s[..|s|] == s;
  }

  /**
   * `updateGraph`'s data part: gather the points of the last `timeframeHours` hours from the four
   * lists as the page does, one list after another, then sort them.
   */
  method BuildChartSeries(m: Monitor, timeframeHours: int, now: int) returns (points: seq<ChartPoint>)
    ensures points == ChartSeries(m.dkaBg, m.dkaRates, m.nonDkaBg, m.nonDkaRates, now - timeframeHours * HourMs)
  {
    var cutoff := now - timeframeHours * HourMs;
    var all := PushBgPoints([], m.dkaBg, cutoff, DkaHhs);
    assert all == BgPoints(m.dkaBg, cutoff, DkaHhs);
    all := PushRates(all, m.dkaRates, cutoff, DkaHhs);
    all := PushBgPoints(all, m.nonDkaBg, cutoff, NonDka);
    all := PushRates(all, m.nonDkaRates, cutoff, NonDka);
    assert all == MergedPoints(m.dkaBg, m.dkaRates, m.nonDkaBg, m.nonDkaRates, cutoff);
    points := SortByTime(all);
  }
}
