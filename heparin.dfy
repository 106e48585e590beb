/**
 * The heparin titration protocol of the calculator page: a decision table keyed by the aPTT value
 * (seconds), its input validation and the confirmation gate for critical values.
 */
module Heparin {
  import opened Wrappers
  import opened Common
  import opened Ranges

  datatype Bolus = NoBolus | BolusUnitsPerKg(units: nat)

  /** "No", "30 min", "1 hr", "2 hrs", or "Hold & PAGE MD, check aPTT q2h until < 121". */
  datatype Hold = NoHold | HoldMinutes(minutes: nat) | HoldAndPageMd

  /** Dose changes are in units/kg/hr. */
  datatype DoseChange =
    | IncreaseBy(units: nat)
    | NoDoseChange
    | DecreaseBy(units: nat)
    | PageMdAndDecreaseBy(units: nat)   // "... restart when aPTT < 121"

  /** "6 hrs", "6 hrs or next morning", "6 hrs after aPTT < 121". */
  datatype NextAptt = SixHours | SixHoursOrNextMorning | SixHoursAfterBelow121

  datatype Instructions = Instructions(
    bolus: Bolus, hold: Hold, doseChange: DoseChange, nextAptt: NextAptt, severity: Severity)

  /** The result of the final `else` branch. */
  const PageMd := Instructions(NoBolus, HoldAndPageMd, PageMdAndDecreaseBy(4), SixHoursAfterBelow121, Critical)

  /** The branch chain of `performHeparinCalculation`. */
  function PerformHeparinCalculation(aptt: real): (d: Instructions)
    ensures d.severity == Therapeutic <==> 70.0 <= aptt <= 90.0
    ensures d.bolus != NoBolus <==> aptt <= 50.0
    ensures d.severity != Critical ==> d.nextAptt != SixHoursAfterBelow121 && d.hold != HoldAndPageMd
  {
    if aptt < 30.0 then
      Instructions(BolusUnitsPerKg(80), NoHold, IncreaseBy(4), SixHours, Warning)
    else if 30.0 <= aptt <= 50.0 then
      Instructions(BolusUnitsPerKg(40), NoHold, IncreaseBy(3), SixHours, Warning)
    else if 51.0 <= aptt <= 69.0 then
      Instructions(NoBolus, NoHold, IncreaseBy(2), SixHours, Warning)
    else if 70.0 <= aptt <= 90.0 then
      Instructions(NoBolus, NoHold, NoDoseChange, SixHoursOrNextMorning, Therapeutic)
    else if 91.0 <= aptt <= 100.0 then
      Instructions(NoBolus, NoHold, DecreaseBy(1), SixHours, Warning)
    else if 101.0 <= aptt <= 110.0 then
      Instructions(NoBolus, HoldMinutes(30), DecreaseBy(2), SixHours, Warning)
    else if 111.0 <= aptt <= 120.0 then
      Instructions(NoBolus, HoldMinutes(60), DecreaseBy(3), SixHours, Warning)
    else if 121.0 <= aptt <= 199.0 then
      Instructions(NoBolus, HoldMinutes(120), DecreaseBy(3), SixHours, Warning)
    else
      PageMd
  }

  /** The protocol table, one row per documented band, ascending; anything else pages the physician. */
  const HeparinTable: seq<Row<Instructions>> := [
    Row(Below(30.0), Instructions(BolusUnitsPerKg(80), NoHold, IncreaseBy(4), SixHours, Warning)),
    Row(Between(30.0, 50.0), Instructions(BolusUnitsPerKg(40), NoHold, IncreaseBy(3), SixHours, Warning)),
    Row(Between(51.0, 69.0), Instructions(NoBolus, NoHold, IncreaseBy(2), SixHours, Warning)),
    Row(Between(70.0, 90.0), Instructions(NoBolus, NoHold, NoDoseChange, SixHoursOrNextMorning, Therapeutic)),
    Row(Between(91.0, 100.0), Instructions(NoBolus, NoHold, DecreaseBy(1), SixHours, Warning)),
    Row(Between(101.0, 110.0), Instructions(NoBolus, HoldMinutes(30), DecreaseBy(2), SixHours, Warning)),
    Row(Between(111.0, 120.0), Instructions(NoBolus, HoldMinutes(60), DecreaseBy(3), SixHours, Warning)),
    Row(Between(121.0, 199.0), Instructions(NoBolus, HoldMinutes(120), DecreaseBy(3), SixHours, Warning))
  ]

  lemma HeparinTableAscending()
    ensures Ascending(HeparinTable)
  {
  }

  /** The branch chain is the table: whatever the aPTT, the first matching band (or the `else`) decides. */
  lemma HeparinTableAgrees(aptt: real)
    ensures PerformHeparinCalculation(aptt) == Lookup(HeparinTable, aptt, PageMd)
  {
    HeparinTableAscending();
    var t := HeparinTable;
    if aptt < 30.0 { LookupRow(t, aptt, PageMd, 0); }
    else if aptt <= 50.0 { LookupRow(t, aptt, PageMd, 1); }
    else if 51.0 <= aptt <= 69.0 { LookupRow(t, aptt, PageMd, 2); }
    else if 70.0 <= aptt <= 90.0 { LookupRow(t, aptt, PageMd, 3); }
    else if 91.0 <= aptt <= 100.0 { LookupRow(t, aptt, PageMd, 4); }
    else if 101.0 <= aptt <= 110.0 { LookupRow(t, aptt, PageMd, 5); }
    else if 111.0 <= aptt <= 120.0 { LookupRow(t, aptt, PageMd, 6); }
    else if 121.0 <= aptt <= 199.0 { LookupRow(t, aptt, PageMd, 7); }
    else { LookupUncovered(t, aptt, PageMd); }
  }

  /**
   * The critical `else` is reached exactly by the values no band covers: 200 and above, and the
   * fractional values strictly between two integer bands.
   */
  lemma HeparinCriticalIffUncovered(aptt: real)
    ensures PerformHeparinCalculation(aptt).severity == Critical <==> !Covered(HeparinTable, aptt)
    ensures PerformHeparinCalculation(aptt).severity == Critical <==>
      aptt >= 200.0 || (50.0 < aptt < 51.0) || (69.0 < aptt < 70.0) || (90.0 < aptt < 91.0)
      || (100.0 < aptt < 101.0) || (110.0 < aptt < 111.0) || (120.0 < aptt < 121.0) || (199.0 < aptt < 200.0)
  {
    var t := HeparinTable;
    if aptt < 30.0 { assert InRange(aptt, t[0].range); }
    else if aptt <= 50.0 { assert InRange(aptt, t[1].range); }
    else if 51.0 <= aptt <= 69.0 { assert InRange(aptt, t[2].range); }
    else if 70.0 <= aptt <= 90.0 { assert InRange(aptt, t[3].range); }
    else if 91.0 <= aptt <= 100.0 { assert InRange(aptt, t[4].range); }
    else if 101.0 <= aptt <= 110.0 { assert InRange(aptt, t[5].range); }
    else if 111.0 <= aptt <= 120.0 { assert InRange(aptt, t[6].range); }
    else if 121.0 <= aptt <= 199.0 { assert InRange(aptt, t[7].range); }
    else {
      forall j | 0 <= j < |t| ensures !InRange(aptt, t[j].range) {
        assert j in {0, 1, 2, 3, 4, 5, 6, 7};
      }
    }
  }

  /** For a whole-number aPTT there is no gap: exactly one band below 200 applies, the `else` from 200 on. */
  lemma HeparinWholeNumbersCovered(n: int)
    requires n >= 0
    ensures n < 200 <==> Covered(HeparinTable, n as real)
    ensures n < 200 ==> ExactlyOneRow(HeparinTable, n as real)
  {
    HeparinCriticalIffUncovered(n as real);
    HeparinTableAscending();
    if n < 200 {
      var j :| 0 <= j < |HeparinTable| && InRange(n as real, HeparinTable[j].range);
      forall k | 0 <= k < |HeparinTable| && InRange(n as real, HeparinTable[k].range)
        ensures k == j
      {
        NoOverlap(HeparinTable, j, k, n as real);
      }
    }
  }

  /** Whether the page asks for confirmation before calculating, and marks the history entry critical. */
  predicate IsCriticalAptt(aptt: real)
  {
    aptt >= 200.0 || aptt < 30.0
  }

  /** `getHeparinInstructions` followed by `performHeparinCalculation`; `None` is an aPTT that parsed to NaN. */
  function GetHeparinInstructions(input: Option<real>): (r: Result<Computation<Instructions>>)
    ensures r.Err? <==> input.None? || input.value < 0.0
    ensures r.Err? ==> r.error == InvalidAptt
    ensures r.Ok? ==> r.value.decision == PerformHeparinCalculation(input.value)
    ensures r.Ok? ==> r.value.needsConfirmation == r.value.historyCritical == (input.value >= 200.0 || input.value < 30.0)
    ensures r.Ok? ==> r.value.protocol == HeparinProtocol && r.value.record.None?
  {
    match input
    case None => Err(InvalidAptt)
    case Some(aptt) =>
      if aptt < 0.0 then Err(InvalidAptt)
      else Ok(Computation(PerformHeparinCalculation(aptt), IsCriticalAptt(aptt), HeparinProtocol,
                          IsCriticalAptt(aptt), None))
  }

  /**
   * The confirmation test and the critical band disagree: a fractional gap value is shown as critical
   * but is neither confirmed nor marked critical in the history, and below 30 it is the other way round.
   */
  lemma ConfirmationIsNotSeverity(aptt: real)
    requires aptt >= 0.0
    ensures 50.0 < aptt < 51.0 ==>
      (PerformHeparinCalculation(aptt).severity == Critical && !GetHeparinInstructions(Some(aptt)).value.needsConfirmation)
    ensures aptt < 30.0 ==>
      (PerformHeparinCalculation(aptt).severity == Warning && GetHeparinInstructions(Some(aptt)).value.needsConfirmation)
    ensures aptt >= 200.0 ==>
      (PerformHeparinCalculation(aptt).severity == Critical && GetHeparinInstructions(Some(aptt)).value.needsConfirmation)
  {
  }
}
