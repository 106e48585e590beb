/**
 * The older stand-alone calculator page: its heparin table, which differs from the current page
 * between 40 and 50 seconds, and its two non-DKA insulin calculators, whose branch chains are the
 * current page's, without the confirmation step, the history entry and the monitoring record.
 */
module LegacyPage {
  import opened Wrappers
  import opened Common
  import opened Ranges
  import opened Heparin
  import opened NonDkaInsulin

  /** The branch chain of the older `getHeparinInstructions`. */
  function LegacyHeparinCalculation(aptt: real): (d: Instructions)
    ensures d.severity == Therapeutic <==> 70.0 <= aptt <= 90.0
    ensures d.bolus != NoBolus <==> aptt <= 40.0
    ensures d.severity == Critical <==> d.nextAptt == SixHoursAfterBelow121
    ensures d.severity == Critical <==> d.hold == HoldAndPageMd
  {
    if aptt < 30.0 then
      Instructions(BolusUnitsPerKg(80), NoHold, IncreaseBy(4), SixHours, Warning)
    else if aptt >= 30.0 && aptt <= 40.0 then
      Instructions(BolusUnitsPerKg(40), NoHold, IncreaseBy(3), SixHours, Warning)
    else if aptt >= 41.0 && aptt <= 50.0 then
      Instructions(NoBolus, NoHold, IncreaseBy(2), SixHours, Warning)
    else if aptt >= 51.0 && aptt <= 69.0 then
      Instructions(NoBolus, NoHold, IncreaseBy(2), SixHours, Warning)
    else if aptt >= 70.0 && aptt <= 90.0 then
      Instructions(NoBolus, NoHold, NoDoseChange, SixHoursOrNextMorning, Therapeutic)
    else if aptt >= 91.0 && aptt <= 100.0 then
      Instructions(NoBolus, NoHold, DecreaseBy(1), SixHours, Warning)
    else if aptt >= 101.0 && aptt <= 110.0 then
      Instructions(NoBolus, HoldMinutes(30), DecreaseBy(2), SixHours, Warning)
    else if aptt >= 111.0 && aptt <= 120.0 then
      Instructions(NoBolus, HoldMinutes(60), DecreaseBy(3), SixHours, Warning)
    else if aptt >= 121.0 && aptt <= 199.0 then
      Instructions(NoBolus, HoldMinutes(120), DecreaseBy(3), SixHours, Warning)
    else
      PageMd
  }

  /** The older protocol table: the current table with its 30-50 band split at 40. */
  const LegacyHeparinTable: seq<Row<Instructions>> := [
    Row(Below(30.0), Instructions(BolusUnitsPerKg(80), NoHold, IncreaseBy(4), SixHours, Warning)),
    Row(Between(30.0, 40.0), Instructions(BolusUnitsPerKg(40), NoHold, IncreaseBy(3), SixHours, Warning)),
    Row(Between(41.0, 50.0), Instructions(NoBolus, NoHold, IncreaseBy(2), SixHours, Warning))
  ] + HeparinTable[2..]

  lemma LegacyTableAscending()
    ensures Ascending(LegacyHeparinTable)
  {
  }

  /** The older branch chain is the older table. */
  lemma LegacyTableAgrees(aptt: real)
    ensures LegacyHeparinCalculation(aptt) == Lookup(LegacyHeparinTable, aptt, PageMd)
  {
    LegacyTableAscending();
    var t := LegacyHeparinTable;
    if aptt < 30.0 { LookupRow(t, aptt, PageMd, 0); }
    else if aptt <= 40.0 { LookupRow(t, aptt, PageMd, 1); }
    else if 41.0 <= aptt <= 50.0 { LookupRow(t, aptt, PageMd, 2); }
    else if 51.0 <= aptt <= 69.0 { LookupRow(t, aptt, PageMd, 3); }
    else if 70.0 <= aptt <= 90.0 { LookupRow(t, aptt, PageMd, 4); }
    else if 91.0 <= aptt <= 100.0 { LookupRow(t, aptt, PageMd, 5); }
    else if 101.0 <= aptt <= 110.0 { LookupRow(t, aptt, PageMd, 6); }
    else if 111.0 <= aptt <= 120.0 { LookupRow(t, aptt, PageMd, 7); }
    else if 121.0 <= aptt <= 199.0 { LookupRow(t, aptt, PageMd, 8); }
    else {
      forall j | 0 <= j < |t| ensures !InRange(aptt, t[j].range) {
        assert j in {0, 1, 2, 3, 4, 5, 6, 7, 8};
      }
      LookupUncovered(t, aptt, PageMd);
    }
  }

  /**
   * The critical `else` is reached exactly by the values no band covers; compared with the current
   * page there is one more gap, between 40 and 41.
   */
  lemma LegacyCriticalIffUncovered(aptt: real)
    ensures LegacyHeparinCalculation(aptt).severity == Critical <==> !Covered(LegacyHeparinTable, aptt)
    ensures LegacyHeparinCalculation(aptt).severity == Critical <==>
      aptt >= 200.0 || (40.0 < aptt < 41.0) || (50.0 < aptt < 51.0) || (69.0 < aptt < 70.0) || (90.0 < aptt < 91.0)
      || (100.0 < aptt < 101.0) || (110.0 < aptt < 111.0) || (120.0 < aptt < 121.0) || (199.0 < aptt < 200.0)
  {
    var t := LegacyHeparinTable;
    if aptt < 30.0 { assert InRange(aptt, t[0].range); }
    else if aptt <= 40.0 { assert InRange(aptt, t[1].range); }
    else if 41.0 <= aptt <= 50.0 { assert InRange(aptt, t[2].range); }
    else if 51.0 <= aptt <= 69.0 { assert InRange(aptt, t[3].range); }
    else if 70.0 <= aptt <= 90.0 { assert InRange(aptt, t[4].range); }
    else if 91.0 <= aptt <= 100.0 { assert InRange(aptt, t[5].range); }
    else if 101.0 <= aptt <= 110.0 { assert InRange(aptt, t[6].range); }
    else if 111.0 <= aptt <= 120.0 { assert InRange(aptt, t[7].range); }
    else if 121.0 <= aptt <= 199.0 { assert InRange(aptt, t[8].range); }
    else {
      forall j | 0 <= j < |t| ensures !InRange(aptt, t[j].range) {
        assert j in {0, 1, 2, 3, 4, 5, 6, 7, 8};
      }
    }
  }

  /** The infusion is held only in the 101-199 bands and in the critical `else`. */
  lemma LegacyHoldOnlyHigh(aptt: real)
    ensures LegacyHeparinCalculation(aptt).hold != NoHold <==>
      (101.0 <= aptt <= 110.0) || (111.0 <= aptt <= 120.0) || (121.0 <= aptt <= 199.0)
      || LegacyHeparinCalculation(aptt).severity == Critical
  {
  }

  /** The two pages disagree exactly when 40 < aPTT <= 50, and there the older page gives no bolus. */
  lemma LegacyDivergence(aptt: real)
    ensures LegacyHeparinCalculation(aptt) != PerformHeparinCalculation(aptt) <==> 40.0 < aptt <= 50.0
    ensures 41.0 <= aptt <= 50.0 ==>
      (LegacyHeparinCalculation(aptt).bolus == NoBolus && PerformHeparinCalculation(aptt).bolus == BolusUnitsPerKg(40))
    ensures 40.0 < aptt < 41.0 ==>
      (LegacyHeparinCalculation(aptt).severity == Critical && PerformHeparinCalculation(aptt).severity == Warning)
  {
  }

  /** The older `getHeparinInstructions`: it validates the same way and renders without any confirmation. */
  function LegacyGetHeparinInstructions(input: Option<real>): (r: Result<Instructions>)
    ensures r.Err? <==> input.None? || input.value < 0.0
    ensures r.Err? ==> r.error == InvalidAptt
    ensures r.Ok? ==> r.value == Lookup(LegacyHeparinTable, input.value, PageMd)
  {
    match input
    case None => Err(InvalidAptt)
    case Some(aptt) =>
      if aptt < 0.0 then Err(InvalidAptt)
      else
        LegacyTableAgrees(aptt);
        Ok(LegacyHeparinCalculation(aptt))
  }

  /**
   * The older `calculateInsulinRate`: the same validation and the same chain as the current page
   * (heparin.js:180-191 is logic.js:589-598 verbatim), but no confirmation, history or record.
   */
  function LegacyCalculateInsulinRate(input: Option<int>): (r: Result<InitialDecision>)
    ensures r.Err? <==> input.None? || input.value <= 0
    ensures r.Err? ==> r.error == InvalidBloodGlucose
    ensures r.Ok? ==> (r.value.rate.BelowThreshold? <==> input.value < 60)
    ensures r.Ok? && r.value.rate.StartRate? ==> r.value.rate.unitsPerHr * 50.0 == (input.value - 60) as real
    ensures r.Ok? ==> (r.value.severity == Critical <==> input.value > 600)
  {
    match input
    case None => Err(InvalidBloodGlucose)
    case Some(bg) =>
      if bg <= 0 then Err(InvalidBloodGlucose)
      else Ok(PerformInsulinRateCalculation(bg))
  }

  /**
   * The older `calculateInsulinAdjustment`: the chain at heparin.js:232-394 is the one at
   * logic.js:665-818 line for line (only comments differ), run straight away whatever the BG.
   */
  function LegacyCalculateInsulinAdjustment(rateInput: Option<real>, bgInput: Option<int>, prev: Option<int>, isT1DM: bool)
    : (r: Result<Adjustment>)
    ensures r.Err? <==> rateInput.None? || bgInput.None? || rateInput.value < 0.0 || bgInput.value <= 0
    ensures r.Err? ==> r.error == InvalidRateAndBg
    ensures r.Ok? ==> r.value == TableAdjustment(rateInput.value, bgInput.value, prev, isT1DM)
  {
    if rateInput.None? || bgInput.None? || rateInput.value < 0.0 || bgInput.value <= 0 then
      Err(InvalidRateAndBg)
    else
      AdjustmentTableAgrees(rateInput.value, bgInput.value, prev, isT1DM);
      Ok(PerformInsulinAdjustmentCalculation(rateInput.value, bgInput.value, prev, isT1DM))
  }

  /** Both insulin calculators of the two pages accept the same inputs and reach the same decisions. */
  lemma LegacyInsulinMatchesCurrent(bg: Option<int>, rate: Option<real>, prev: Option<int>, isT1DM: bool)
    ensures LegacyCalculateInsulinRate(bg).Ok? <==> CalculateInsulinRate(bg).Ok?
    ensures LegacyCalculateInsulinRate(bg).Ok? ==>
      LegacyCalculateInsulinRate(bg).value == CalculateInsulinRate(bg).value.decision
    ensures LegacyCalculateInsulinAdjustment(rate, bg, prev, isT1DM).Ok? <==> CalculateInsulinAdjustment(rate, bg, prev, isT1DM).Ok?
    ensures LegacyCalculateInsulinAdjustment(rate, bg, prev, isT1DM).Ok? ==>
      LegacyCalculateInsulinAdjustment(rate, bg, prev, isT1DM).value == CalculateInsulinAdjustment(rate, bg, prev, isT1DM).value.decision
  {
    if LegacyCalculateInsulinAdjustment(rate, bg, prev, isT1DM).Ok? {
      AdjustmentTableAgrees(rate.value, bg.value, prev, isT1DM);
    }
  }
}
