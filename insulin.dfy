/**
 * The non-DKA/HHS insulin infusion protocol of the calculator page: the initial rate from a blood
 * glucose (BG, mg/dL), and the adjustment of a running infusion from the current rate (units/hr),
 * the current BG and the previous BG.
 */
module NonDkaInsulin {
  import opened Wrappers
  import opened Common
  import opened Ranges

  // ---------------------------------------------------------------- initial rate

  /** "BG is below the threshold for calculation", or a rate (with the >600 physician-order warning). */
  datatype InitialRate = BelowThreshold | StartRate(unitsPerHr: real, physicianOrder: bool)

  datatype InitialDecision = InitialDecision(rate: InitialRate, severity: Severity)

  /** `(bg - 60) * 0.02`, the rate before the threshold test. */
  function CalculatedRate(bg: int): real
  {
    (bg - 60) as real * 0.02
  }

  /** The branch chain of `performInsulinRateCalculation`. */
  function PerformInsulinRateCalculation(bg: int): (d: InitialDecision)
    ensures d.rate.BelowThreshold? <==> bg < 60
    ensures d.rate.StartRate? ==> d.rate.unitsPerHr >= 0.0 && d.rate.unitsPerHr * 50.0 == (bg - 60) as real
    ensures d.rate.StartRate? ==> (d.rate.physicianOrder <==> bg > 600)
    ensures d.severity == Warning <==> bg < 60
    ensures d.severity == Critical <==> bg > 600
    ensures d.severity == Info <==> 60 <= bg <= 600
  {
    var rate := CalculatedRate(bg);
    if rate < 0.0 then InitialDecision(BelowThreshold, Warning)
    else if bg > 600 then InitialDecision(StartRate(rate, true), Critical)
    else InitialDecision(StartRate(rate, false), Info)
  }

  /** `calculateInsulinRate` followed by `performInsulinRateCalculation`; `None` is a BG that parsed to NaN. */
  function CalculateInsulinRate(input: Option<int>): (r: Result<Computation<InitialDecision>>)
    ensures r.Err? <==> input.None? || input.value <= 0
    ensures r.Err? ==> r.error == InvalidBloodGlucose
    ensures r.Ok? ==> r.value.decision == PerformInsulinRateCalculation(input.value)
    ensures r.Ok? ==> r.value.needsConfirmation == r.value.historyCritical == (input.value > 600)
    ensures r.Ok? ==> r.value.protocol == NonDkaInitialRate
    ensures r.Ok? ==> r.value.record == Some(ReadingRecord(NonDka, Some(input.value as real),
      if input.value >= 60 then Some(CalculatedRate(input.value)) else None))
  {
    match input
    case None => Err(InvalidBloodGlucose)
    case Some(bg) =>
      if bg <= 0 then Err(InvalidBloodGlucose)
      else
        var rate := CalculatedRate(bg);
        Ok(Computation(PerformInsulinRateCalculation(bg), bg > 600, NonDkaInitialRate, bg > 600,
                       Some(ReadingRecord(NonDka, Some(bg as real), if rate >= 0.0 then Some(rate) else None))))
  }

  /** The documented anchor points: 60 gives rate 0, 59 is below threshold, 601 needs a physician order. */
  lemma InitialRateAnchors()
    ensures PerformInsulinRateCalculation(60) == InitialDecision(StartRate(0.0, false), Info)
    ensures PerformInsulinRateCalculation(59).rate == BelowThreshold
    ensures PerformInsulinRateCalculation(601).severity == Critical
    ensures PerformInsulinRateCalculation(601).rate.physicianOrder
  {
  }

  // ---------------------------------------------------------------- adjustment

  /** What the adjustment tells the nurse to do; `change` is in units/hr. */
  datatype Action =
    | HoldInsulin(atMostSeventy: bool, startDextrose: bool)  // hypoglycaemia branch; T1DM adds D5W at 50 cc/hr
    | Decrease(change: real)
    | Increase(change: real)
    | NoChange
    | NoAction                                               // the empty instruction

  /** The second line of the result: "New Rate:", "Current Rate:", or nothing. */
  datatype RateInfo = NoRateInfo | NewRate(rate: real) | CurrentRate(rate: real)

  datatype Adjustment = Adjustment(action: Action, rateInfo: RateInfo, severity: Severity)

  function DecreaseOf(rate: real, change: real): Adjustment
  {
    Adjustment(Decrease(change), NewRate(Max(0.0, rate - change)), Warning)
  }

  function IncreaseOf(rate: real, change: real): Adjustment
  {
    Adjustment(Increase(change), NewRate(rate + change), Warning)
  }

  function KeepRate(rate: real): Adjustment
  {
    Adjustment(NoChange, CurrentRate(rate), Therapeutic)
  }

  /** `!isNaN(previousBg) && lo <= previousBg && previousBg <= hi`. */
  predicate PrevIn(prev: Option<int>, lo: int, hi: int)
  {
    prev.Some? && lo <= prev.value <= hi
  }

  /** The branch chain of `performInsulinAdjustmentCalculation`; `None` is a previous BG that parsed to NaN. */
  function PerformInsulinAdjustmentCalculation(rate: real, bg: int, prev: Option<int>, isT1DM: bool): (d: Adjustment)
    ensures d.action.HoldInsulin? <==> bg <= 100
    ensures d.severity == Critical <==> bg <= 100
    ensures d.severity == Therapeutic <==> d.action == NoChange
    ensures d.action.HoldInsulin? ==> d.action.startDextrose == isT1DM && d.rateInfo == NoRateInfo
  {
    if bg <= 70 then
      Adjustment(HoldInsulin(true, isT1DM), NoRateInfo, Critical)
    else if 71 <= bg <= 100 then
      Adjustment(HoldInsulin(false, isT1DM), NoRateInfo, Critical)
    else if 101 <= bg <= 140 then Adjust101To140(rate, prev)
    else if 141 <= bg <= 180 then Adjust141To180(rate, prev)
    else if 181 <= bg <= 200 then Adjust181To200(rate, prev)
    else if 201 <= bg <= 250 then Adjust201To250(rate, prev)
    else if 251 <= bg <= 300 then Adjust251To300(rate, prev)
    else if 301 <= bg <= 400 then IncreaseOf(rate, Max(rate * 0.40, 3.0))
    else IncreaseOf(rate, Max(rate * 0.50, 4.0))
  }

  /** Current BG 101-140: decrease, by an amount that depends on the previous BG. */
  function Adjust101To140(rate: real, prev: Option<int>): Adjustment
  {
    if prev.Some? && prev.value < 100 then DecreaseOf(rate, 1.0)
    else if PrevIn(prev, 141, 300) then DecreaseOf(rate, Max(rate * 0.50, 2.0))
    else if prev.Some? && prev.value > 300 then DecreaseOf(rate, Max(rate * 0.70, 2.0))
    else DecreaseOf(rate, Max(rate * 0.25, 0.5))
  }

  /** Current BG 141-180: the target band. */
  function Adjust141To180(rate: real, prev: Option<int>): Adjustment
  {
    if prev.Some? && prev.value >= 201 then DecreaseOf(rate, Max(rate * 0.50, 2.0))
    else KeepRate(rate)
  }

  /** Current BG 181-200. */
  function Adjust181To200(rate: real, prev: Option<int>): Adjustment
  {
    if prev.Some? && prev.value < 100 then IncreaseOf(rate, 1.0)
    else if PrevIn(prev, 100, 180) then IncreaseOf(rate, 0.5)
    else if PrevIn(prev, 181, 200) then IncreaseOf(rate, Max(rate * 0.25, 1.0))
    else if PrevIn(prev, 201, 250) then KeepRate(rate)
    else if prev.Some? && prev.value >= 251 then DecreaseOf(rate, Max(rate * 0.25, 2.0))
    else IncreaseOf(rate, 0.5)
  }

  /** Current BG 201-250; the fallback rounds the new rate to one decimal. */
  function Adjust201To250(rate: real, prev: Option<int>): Adjustment
  {
    if prev.Some? && prev.value <= 180 then IncreaseOf(rate, Max(rate * 0.25, 2.0))
    else if PrevIn(prev, 181, 300) then IncreaseOf(rate, Max(rate * 0.25, 1.0))
    else if PrevIn(prev, 301, 400) then IncreaseOf(rate, 1.0)
    else if prev.Some? && prev.value > 400 then KeepRate(rate)
    else
      var change := Max(rate * 0.25, 1.0);
      Adjustment(Increase(change), NewRate(RoundToTenth(rate + change)), Warning)
  }

  /** Current BG 251-300; this chain has no final `else`. */
  function Adjust251To300(rate: real, prev: Option<int>): Adjustment
  {
    if prev.Some? && prev.value <= 140 then IncreaseOf(rate, Max(rate * 0.25, 2.5))
    else if PrevIn(prev, 141, 180) then IncreaseOf(rate, Max(rate * 0.25, 1.5))
    else if PrevIn(prev, 181, 250) then IncreaseOf(rate, Max(rate * 0.25, 1.0))
    else if PrevIn(prev, 251, 300) then IncreaseOf(rate, Max(rate * 0.25, 1.5))
    else if PrevIn(prev, 301, 400) then IncreaseOf(rate, Max(rate * 0.25, 2.0))
    else if prev.Some? && prev.value > 400 then KeepRate(rate)
    else Adjustment(NoAction, NoRateInfo, Warning)
  }

  /** `calculateInsulinAdjustment` followed by `performInsulinAdjustmentCalculation`. */
  function CalculateInsulinAdjustment(rateInput: Option<real>, bgInput: Option<int>, prev: Option<int>, isT1DM: bool)
    : (r: Result<Computation<Adjustment>>)
    ensures r.Err? <==> rateInput.None? || bgInput.None? || rateInput.value < 0.0 || bgInput.value <= 0
    ensures r.Err? ==> r.error == InvalidRateAndBg
    ensures r.Ok? ==> r.value.decision == PerformInsulinAdjustmentCalculation(rateInput.value, bgInput.value, prev, isT1DM)
    ensures r.Ok? ==> r.value.needsConfirmation == r.value.historyCritical == (bgInput.value <= 70 || bgInput.value > 400)
    ensures r.Ok? ==> r.value.protocol == NonDkaAdjustment
    // The reading recorded is always the current BG with the CURRENT rate, whatever the decision says.
    ensures r.Ok? ==> r.value.record == Some(ReadingRecord(NonDka, Some(bgInput.value as real), Some(rateInput.value)))
  {
    if rateInput.None? || bgInput.None? || rateInput.value < 0.0 || bgInput.value <= 0 then
      Err(InvalidRateAndBg)
    else
      var rate, bg := rateInput.value, bgInput.value;
      var d := PerformInsulinAdjustmentCalculation(rate, bg, prev, isT1DM);
      // The page looks for "New Rate:" in the action text, which never contains it, so the
      // recorded rate stays the current one.
      Ok(Computation(d, bg <= 70 || bg > 400, NonDkaAdjustment, bg <= 70 || bg > 400,
                     Some(ReadingRecord(NonDka, Some(bg as real), Some(rate)))))
  }

  /**
   * The recorded reading ignores the decision: with a rate of 10, a BG of 120 and a previous BG of 90
   * the nurse is told to go to 9 units/hr, yet 10 is what the chart and the rate flag see.
   */
  lemma RecordKeepsOldRate()
    ensures var r := CalculateInsulinAdjustment(Some(10.0), Some(120), Some(90), false);
      && r.Ok? && r.value.decision.rateInfo == NewRate(9.0)
      && r.value.record.Some? && r.value.record.value.rate == Some(10.0)
  {
  }

  /** The rate in force after an adjustment: the new rate when the decision sets one, else the current rate. */
  function RateInForce(d: Adjustment, rate: real): real
  {
    if d.rateInfo.NewRate? then d.rateInfo.rate else rate
  }

  /**
   * The adjustment calculator as the rate extraction evidently intends: the same decision, gate and
   * history entry, but the reading recorded carries the rate in force after the adjustment.
   */
  function CalculateInsulinAdjustmentRecordingNewRate(rateInput: Option<real>, bgInput: Option<int>, prev: Option<int>, isT1DM: bool)
    : (r: Result<Computation<Adjustment>>)
    ensures r.Err? <==> CalculateInsulinAdjustment(rateInput, bgInput, prev, isT1DM).Err?
    ensures r.Ok? ==> r.value.(record := None) == CalculateInsulinAdjustment(rateInput, bgInput, prev, isT1DM).value.(record := None)
    ensures r.Ok? ==> r.value.record.Some? && r.value.record.value.bg == Some(bgInput.value as real)
    ensures r.Ok? && r.value.decision.rateInfo.NewRate? ==> r.value.record.value.rate == Some(r.value.decision.rateInfo.rate)
    ensures r.Ok? && !r.value.decision.rateInfo.NewRate? ==> r.value.record.value.rate == Some(rateInput.value)
  {
    match CalculateInsulinAdjustment(rateInput, bgInput, prev, isT1DM)
    case Err(e) => Err(e)
    case Ok(c) =>
      Ok(c.(record := Some(ReadingRecord(NonDka, Some(bgInput.value as real), Some(RateInForce(c.decision, rateInput.value))))))
  }

  // ---------------------------------------------------------------- the adjustment table

  /** One cell of the adjustment protocol; changes are max(rate * pct, flat) units/hr. */
  datatype Rule =
    | HoldRule(atMostSeventy: bool)
    | DecreaseRule(pct: real, flat: real)          // new rate floored at 0
    | IncreaseRule(pct: real, flat: real)
    | IncreaseRoundedRule(pct: real, flat: real)   // new rate rounded to one decimal
    | KeepRule
    | NoActionRule

  function ApplyRule(rule: Rule, rate: real, isT1DM: bool): Adjustment
  {
    match rule
    case HoldRule(low) => Adjustment(HoldInsulin(low, isT1DM), NoRateInfo, Critical)
    case DecreaseRule(pct, flat) => DecreaseOf(rate, Max(rate * pct, flat))
    case IncreaseRule(pct, flat) => IncreaseOf(rate, Max(rate * pct, flat))
    case IncreaseRoundedRule(pct, flat) =>
      var change := Max(rate * pct, flat);
      Adjustment(Increase(change), NewRate(RoundToTenth(rate + change)), Warning)
    case KeepRule => KeepRate(rate)
    case NoActionRule => Adjustment(NoAction, NoRateInfo, Warning)
  }

  /** A current-BG band: rows keyed by the previous BG, and the rule when none matches or it is absent. */
  datatype Band = Band(previous: seq<Row<Rule>>, fallback: Rule)

  /** The band past the last row (current BG above 400). */
  const Above400Band := Band([], IncreaseRule(0.50, 4.0))

  const Band101To140 := Band([
      Row(Below(100.0), DecreaseRule(0.0, 1.0)),
      Row(Between(141.0, 300.0), DecreaseRule(0.50, 2.0)),
      Row(Above(300.0), DecreaseRule(0.70, 2.0))],
    DecreaseRule(0.25, 0.5))

  const Band141To180 := Band([
      Row(AtLeast(201.0), DecreaseRule(0.50, 2.0))],
    KeepRule)

  const Band181To200 := Band([
      Row(Below(100.0), IncreaseRule(0.0, 1.0)),
      Row(Between(100.0, 180.0), IncreaseRule(0.0, 0.5)),
      Row(Between(181.0, 200.0), IncreaseRule(0.25, 1.0)),
      Row(Between(201.0, 250.0), KeepRule),
      Row(AtLeast(251.0), DecreaseRule(0.25, 2.0))],
    IncreaseRule(0.0, 0.5))

  const Band201To250 := Band([
      Row(AtMost(180.0), IncreaseRule(0.25, 2.0)),
      Row(Between(181.0, 300.0), IncreaseRule(0.25, 1.0)),
      Row(Between(301.0, 400.0), IncreaseRule(0.0, 1.0)),
      Row(Above(400.0), KeepRule)],
    IncreaseRoundedRule(0.25, 1.0))

  const Band251To300 := Band([
      Row(AtMost(140.0), IncreaseRule(0.25, 2.5)),
      Row(Between(141.0, 180.0), IncreaseRule(0.25, 1.5)),
      Row(Between(181.0, 250.0), IncreaseRule(0.25, 1.0)),
      Row(Between(251.0, 300.0), IncreaseRule(0.25, 1.5)),
      Row(Between(301.0, 400.0), IncreaseRule(0.25, 2.0)),
      Row(Above(400.0), KeepRule)],
    NoActionRule)

  /** The protocol as a table: current-BG bands, each with its previous-BG rows and fallback. */
  const AdjustmentTable: seq<Row<Band>> := [
    Row(AtMost(70.0), Band([], HoldRule(true))),
    Row(Between(71.0, 100.0), Band([], HoldRule(false))),
    Row(Between(101.0, 140.0), Band101To140),
    Row(Between(141.0, 180.0), Band141To180),
    Row(Between(181.0, 200.0), Band181To200),
    Row(Between(201.0, 250.0), Band201To250),
    Row(Between(251.0, 300.0), Band251To300),
    Row(Between(301.0, 400.0), Band([], IncreaseRule(0.40, 3.0)))
  ]

  /** The rule a band picks: the first previous-BG row, or the fallback when none matches or it is absent. */
  function BandRule(band: Band, prev: Option<int>): Rule
  {
    if prev.None? then band.fallback else Lookup(band.previous, prev.value as real, band.fallback)
  }

  /** The table lookup: the current-BG band, then the rule that band picks. */
  function TableAdjustment(rate: real, bg: int, prev: Option<int>, isT1DM: bool): Adjustment
  {
    ApplyRule(BandRule(Lookup(AdjustmentTable, bg as real, Above400Band), prev), rate, isT1DM)
  }

  lemma AdjustmentTableAscending()
    ensures Ascending(AdjustmentTable)
    ensures forall i :: 0 <= i < |AdjustmentTable| ==> Ascending(AdjustmentTable[i].value.previous)
  {
    PreviousRowsAscending();
    forall i | 0 <= i < |AdjustmentTable| ensures Ascending(AdjustmentTable[i].value.previous) {
      assert i in {0, 1, 2, 3, 4, 5, 6, 7};
    }
  }

  /** Each band's previous-BG rows are ascending. */
  lemma PreviousRowsAscending()
    ensures Ascending(Band101To140.previous) && Ascending(Band141To180.previous)
    ensures Ascending(Band181To200.previous)
    ensures Ascending(Band201To250.previous)
    ensures Ascending(Band251To300.previous)
  {
    Band181To200Ascending();
    Band201To250Ascending();
    Band251To300Ascending();
  }

  lemma Band181To200Ascending()
    ensures Ascending(Band181To200.previous)
  {
    var t := Band181To200.previous;
    assert Before(t[0].range, t[1].range) && Before(t[1].range, t[2].range);
    assert Before(t[2].range, t[3].range) && Before(t[3].range, t[4].range);
  }

  lemma Band201To250Ascending()
    ensures Ascending(Band201To250.previous)
  {
    var t := Band201To250.previous;
    assert Before(t[0].range, t[1].range) && Before(t[1].range, t[2].range) && Before(t[2].range, t[3].range);
  }

  lemma Band251To300Ascending()
    ensures Ascending(Band251To300.previous)
  {
    var t := Band251To300.previous;
    assert Before(t[0].range, t[1].range) && Before(t[1].range, t[2].range);
    assert Before(t[2].range, t[3].range) && Before(t[3].range, t[4].range) && Before(t[4].range, t[5].range);
  }

  /** Band `k` of the table holds `bg`, so it decides. */
  lemma InBand(k: nat, bg: int)
    requires k < |AdjustmentTable| && InRange(bg as real, AdjustmentTable[k].range)
    ensures Lookup(AdjustmentTable, bg as real, Above400Band) == AdjustmentTable[k].value
  {
    AdjustmentTableAscending();
    LookupRow(AdjustmentTable, bg as real, Above400Band, k);
  }

  /** Previous-BG row `j` of an ascending band holds `p`, so it decides. */
  lemma InRow(band: Band, j: nat, p: int)
    requires Ascending(band.previous) && j < |band.previous| && InRange(p as real, band.previous[j].range)
    ensures BandRule(band, Some(p)) == band.previous[j].value
  {
    LookupRow(band.previous, p as real, band.fallback, j);
  }

  /** The bands whose rule ignores the previous BG: up to 100, 301 to 400, and above 400. */
  lemma AgreesWithoutPrevious(rate: real, bg: int, prev: Option<int>, isT1DM: bool)
    requires bg <= 100 || bg > 300
    ensures PerformInsulinAdjustmentCalculation(rate, bg, prev, isT1DM) == TableAdjustment(rate, bg, prev, isT1DM)
  {
    var t := AdjustmentTable;
    if bg <= 400 {
      var k := if bg <= 70 then 0 else if bg <= 100 then 1 else 7;
      InBand(k, bg);
      if prev.Some? { LookupUncovered(t[k].value.previous, prev.value as real, t[k].value.fallback); }
    } else {
      var x := bg as real;
      assert !Covered(t, x) by {
        forall j | 0 <= j < |t| ensures !InRange(x, t[j].range) {
          assert j in {0, 1, 2, 3, 4, 5, 6, 7};
        }
      }
      LookupUncovered(t, x, Above400Band);
    }
  }

  lemma Agrees101To140(rate: real, prev: Option<int>, isT1DM: bool)
    ensures Adjust101To140(rate, prev) == ApplyRule(BandRule(Band101To140, prev), rate, isT1DM)
  {
    var b := Band101To140;
    PreviousRowsAscending();
    if prev.Some? {
      var p := prev.value;
      if p < 100 { InRow(b, 0, p); }
      else if 141 <= p <= 300 { InRow(b, 1, p); }
      else if p > 300 { InRow(b, 2, p); }
      else {
        assert !Covered(b.previous, p as real) by {
          forall j | 0 <= j < |b.previous| ensures !InRange(p as real, b.previous[j].range) {
            assert j in {0, 1, 2};
          }
        }
      }
    }
  }

  lemma Agrees141To180(rate: real, prev: Option<int>, isT1DM: bool)
    ensures Adjust141To180(rate, prev) == ApplyRule(BandRule(Band141To180, prev), rate, isT1DM)
  {
    if prev.Some? && prev.value >= 201 { InRow(Band141To180, 0, prev.value); }
  }

  lemma Agrees181To200(rate: real, prev: Option<int>, isT1DM: bool)
    ensures Adjust181To200(rate, prev) == ApplyRule(BandRule(Band181To200, prev), rate, isT1DM)
  {
    if prev.Some? {
      if prev.value <= 180 { Agrees181To200Low(rate, prev.value, isT1DM); }
      else { Agrees181To200High(rate, prev.value, isT1DM); }
    }
  }

  lemma Agrees181To200Low(rate: real, p: int, isT1DM: bool)
    requires p <= 180
    ensures Adjust181To200(rate, Some(p)) == ApplyRule(BandRule(Band181To200, Some(p)), rate, isT1DM)
  {
    Band181To200Ascending();
    if p < 100 { InRow(Band181To200, 0, p); }
    else { InRow(Band181To200, 1, p); }
  }

  lemma Agrees181To200High(rate: real, p: int, isT1DM: bool)
    requires p > 180
    ensures Adjust181To200(rate, Some(p)) == ApplyRule(BandRule(Band181To200, Some(p)), rate, isT1DM)
  {
    Band181To200Ascending();
    if p <= 200 { InRow(Band181To200, 2, p); }
    else if p <= 250 { InRow(Band181To200, 3, p); }
    else { InRow(Band181To200, 4, p); }
  }

  lemma Agrees201To250(rate: real, prev: Option<int>, isT1DM: bool)
    ensures Adjust201To250(rate, prev) == ApplyRule(BandRule(Band201To250, prev), rate, isT1DM)
  {
    var b := Band201To250;
    Band201To250Ascending();
    if prev.Some? {
      var p := prev.value;
      if p <= 180 { InRow(b, 0, p); }
      else if p <= 300 { InRow(b, 1, p); }
      else if p <= 400 { InRow(b, 2, p); }
      else { InRow(b, 3, p); }
    }
  }

  lemma Agrees251To300(rate: real, prev: Option<int>, isT1DM: bool)
    ensures Adjust251To300(rate, prev) == ApplyRule(BandRule(Band251To300, prev), rate, isT1DM)
  {
    if prev.Some? {
      if prev.value <= 250 { Agrees251To300Low(rate, prev.value, isT1DM); }
      else { Agrees251To300High(rate, prev.value, isT1DM); }
    }
  }

  lemma Agrees251To300Low(rate: real, p: int, isT1DM: bool)
    requires p <= 250
    ensures Adjust251To300(rate, Some(p)) == ApplyRule(BandRule(Band251To300, Some(p)), rate, isT1DM)
  {
    Band251To300Ascending();
    if p <= 140 { InRow(Band251To300, 0, p); }
    else if p <= 180 { InRow(Band251To300, 1, p); }
    else { InRow(Band251To300, 2, p); }
  }

  lemma Agrees251To300High(rate: real, p: int, isT1DM: bool)
    requires p > 250
    ensures Adjust251To300(rate, Some(p)) == ApplyRule(BandRule(Band251To300, Some(p)), rate, isT1DM)
  {
    Band251To300Ascending();
    if p <= 300 { InRow(Band251To300, 3, p); }
    else if p <= 400 { InRow(Band251To300, 4, p); }
    else { InRow(Band251To300, 5, p); }
  }

  /** Within one of the bands keyed by the previous BG, the chain is that band of the table. */
  lemma AgreesInBand(rate: real, bg: int, prev: Option<int>, isT1DM: bool)
    requires 101 <= bg <= 300
    ensures PerformInsulinAdjustmentCalculation(rate, bg, prev, isT1DM) == TableAdjustment(rate, bg, prev, isT1DM)
  {
    var d := PerformInsulinAdjustmentCalculation(rate, bg, prev, isT1DM);
    if bg <= 140 {
      InBand(2, bg);
      assert d == Adjust101To140(rate, prev);
      Agrees101To140(rate, prev, isT1DM);
    } else if bg <= 180 {
      InBand(3, bg);
      assert d == Adjust141To180(rate, prev);
      Agrees141To180(rate, prev, isT1DM);
    } else if bg <= 200 {
      InBand(4, bg);
      assert d == Adjust181To200(rate, prev);
      Agrees181To200(rate, prev, isT1DM);
    } else if bg <= 250 {
      InBand(5, bg);
      assert d == Adjust201To250(rate, prev);
      Agrees201To250(rate, prev, isT1DM);
    } else {
      InBand(6, bg);
      assert d == Adjust251To300(rate, prev);
      Agrees251To300(rate, prev, isT1DM);
    }
  }

  /** The branch chain is the table, for every input. */
  lemma AdjustmentTableAgrees(rate: real, bg: int, prev: Option<int>, isT1DM: bool)
    ensures PerformInsulinAdjustmentCalculation(rate, bg, prev, isT1DM) == TableAdjustment(rate, bg, prev, isT1DM)
  {
    if bg <= 100 || bg > 300 {
      AgreesWithoutPrevious(rate, bg, prev, isT1DM);
    } else {
      AgreesInBand(rate, bg, prev, isT1DM);
    }
  }

  /**
   * From 181 to 300 the previous-BG rows cover every whole number, so the band's fallback is reached
   * exactly when the previous BG is absent; from 101 to 140 also by a previous BG of 100 to 140.
   */
  lemma PreviousRowsCoverage(p: int)
    ensures Covered(Band181To200.previous, p as real)
    ensures Covered(Band201To250.previous, p as real)
    ensures Covered(Band251To300.previous, p as real)
    ensures Covered(Band101To140.previous, p as real) <==> !(100 <= p <= 140)
  {
    var x := p as real;
    if p < 100 { assert InRange(x, Band181To200.previous[0].range); }
    else if p <= 180 { assert InRange(x, Band181To200.previous[1].range); }
    else if p <= 200 { assert InRange(x, Band181To200.previous[2].range); }
    else if p <= 250 { assert InRange(x, Band181To200.previous[3].range); }
    else { assert InRange(x, Band181To200.previous[4].range); }
    if p <= 180 { assert InRange(x, Band201To250.previous[0].range); }
    else if p <= 300 { assert InRange(x, Band201To250.previous[1].range); }
    else if p <= 400 { assert InRange(x, Band201To250.previous[2].range); }
    else { assert InRange(x, Band201To250.previous[3].range); }
    if p <= 140 { assert InRange(x, Band251To300.previous[0].range); }
    else if p <= 180 { assert InRange(x, Band251To300.previous[1].range); }
    else if p <= 250 { assert InRange(x, Band251To300.previous[2].range); }
    else if p <= 300 { assert InRange(x, Band251To300.previous[3].range); }
    else if p <= 400 { assert InRange(x, Band251To300.previous[4].range); }
    else { assert InRange(x, Band251To300.previous[5].range); }
    if p < 100 { assert InRange(x, Band101To140.previous[0].range); }
    else if 141 <= p <= 300 { assert InRange(x, Band101To140.previous[1].range); }
    else if p > 300 { assert InRange(x, Band101To140.previous[2].range); }
    else {
      forall j | 0 <= j < |Band101To140.previous| ensures !InRange(x, Band101To140.previous[j].range) {
        assert j in {0, 1, 2};
      }
    }
  }

  // ---------------------------------------------------------------- properties of the adjustment

  /** At or below 100 the infusion is held whatever the previous BG; T1DM only adds the dextrose step. */
  lemma LowBgHolds(rate: real, bg: int, prev: Option<int>, isT1DM: bool)
    requires bg <= 100
    ensures PerformInsulinAdjustmentCalculation(rate, bg, prev, isT1DM)
      == Adjustment(HoldInsulin(bg <= 70, isT1DM), NoRateInfo, Critical)
  {
  }

  /** Above 100 the T1DM flag plays no part. */
  lemma T1dmOnlyMattersWhenLow(rate: real, bg: int, prev: Option<int>)
    requires bg > 100
    ensures PerformInsulinAdjustmentCalculation(rate, bg, prev, true)
      == PerformInsulinAdjustmentCalculation(rate, bg, prev, false)
  {
  }

  /**
   * For a valid (non-negative) rate: decreases are positive and floor the new rate at 0, increases
   * are positive and raise it, "no change" keeps it, and no rate ever shown is negative.
   */
  lemma AdjustmentDirections(rate: real, bg: int, prev: Option<int>, isT1DM: bool)
    requires rate >= 0.0
    ensures var d := PerformInsulinAdjustmentCalculation(rate, bg, prev, isT1DM);
      && (d.action.Decrease? ==> d.action.change > 0.0 && d.rateInfo == NewRate(Max(0.0, rate - d.action.change)))
      && (d.action.Increase? ==> d.action.change > 0.0 && d.rateInfo.NewRate? && d.rateInfo.rate > rate)
      && (d.action == NoChange ==> d.rateInfo == CurrentRate(rate))
      && (d.action == NoAction ==> d.rateInfo == NoRateInfo)
      && (d.rateInfo.NewRate? ==> d.rateInfo.rate >= 0.0)
  {
  }

  /** From 141 to 180 the rate is kept unless the previous BG was 201 or more. */
  lemma TargetBandKeepsRate(rate: real, bg: int, prev: Option<int>, isT1DM: bool)
    requires 141 <= bg <= 180
    ensures PerformInsulinAdjustmentCalculation(rate, bg, prev, isT1DM).action == NoChange
      <==> !(prev.Some? && prev.value >= 201)
  {
  }

  /** Above 300 the previous BG is ignored: +max(40%, 3) up to 400, +max(50%, 4) beyond. */
  lemma HighBgIgnoresPrevious(rate: real, bg: int, prev: Option<int>, isT1DM: bool)
    requires bg > 300
    ensures PerformInsulinAdjustmentCalculation(rate, bg, prev, isT1DM)
      == IncreaseOf(rate, if bg <= 400 then Max(rate * 0.40, 3.0) else Max(rate * 0.50, 4.0))
  {
  }

  /** The empty instruction happens exactly for a BG of 251 to 300 without a previous BG. */
  lemma NoActionIff(rate: real, bg: int, prev: Option<int>, isT1DM: bool)
    ensures PerformInsulinAdjustmentCalculation(rate, bg, prev, isT1DM).action == NoAction
      <==> 251 <= bg <= 300 && prev.None?
  {
  }

  /** The 201-250 fallback (no previous BG) rounds the new rate to one decimal. */
  lemma FallbackRoundsToTenth(rate: real, bg: int, isT1DM: bool)
    requires 201 <= bg <= 250
    ensures var d := PerformInsulinAdjustmentCalculation(rate, bg, None, isT1DM);
      && d.rateInfo == NewRate(RoundToTenth(rate + Max(rate * 0.25, 1.0)))
      && (d.rateInfo.rate * 10.0).Floor as real == d.rateInfo.rate * 10.0
  {
  }

  /** Two documented cases. */
  lemma AdjustmentExamples()
    ensures PerformInsulinAdjustmentCalculation(10.0, 120, Some(90), false) == Adjustment(Decrease(1.0), NewRate(9.0), Warning)
    ensures PerformInsulinAdjustmentCalculation(5.0, 75, None, true) == Adjustment(HoldInsulin(false, true), NoRateInfo, Critical)
  {
  }
}
