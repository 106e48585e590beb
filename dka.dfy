/**
 * The DKA/HHS insulin protocol of the calculator page: the weight-based bolus and initiation rate,
 * the phase 1 continuation (by the hourly BG drop), the transition rate and the phase 2 titration
 * (by the current BG). None of these asks for confirmation.
 */
module DkaHhs {
  import opened Wrappers
  import opened Common
  import opened Ranges

  /** A weight-based amount: a bolus in units, or a rate in units/hr. */
  datatype Dose = Dose(amount: real, severity: Severity)

  /** 0.1 units/kg, capped at 10 units. */
  function BolusAmount(weight: real): (b: real)
    ensures b <= 10.0 && b <= weight * 0.1
    ensures b == 10.0 || b == weight * 0.1
  {
    Min(weight * 0.1, 10.0)
  }

  /** `calculateDkaBolus`; `None` is a weight that parsed to NaN. */
  function CalculateDkaBolus(weight: Option<real>): (r: Result<Computation<Dose>>)
    ensures r.Err? <==> weight.None? || weight.value <= 0.0
    ensures r.Err? ==> r.error == InvalidWeight
    ensures r.Ok? ==> 0.0 < r.value.decision.amount <= 10.0
    ensures r.Ok? ==> r.value.decision.amount == BolusAmount(weight.value)
    ensures r.Ok? ==> r.value.decision.severity == Therapeutic
    ensures r.Ok? ==> !r.value.needsConfirmation && !r.value.historyCritical
    ensures r.Ok? ==> r.value.protocol == DkaBolus && r.value.record.None?
  {
    if weight.None? || weight.value <= 0.0 then Err(InvalidWeight)
    else Ok(Computation(Dose(BolusAmount(weight.value), Therapeutic), false, DkaBolus, false, None))
  }

  /** `calculateDkaInitiation`: 0.1 units/kg/hr, uncapped, recorded as a DKA rate reading. */
  function CalculateDkaInitiation(weight: Option<real>): (r: Result<Computation<Dose>>)
    ensures r.Err? <==> weight.None? || weight.value <= 0.0
    ensures r.Err? ==> r.error == InvalidWeight
    ensures r.Ok? ==> r.value.decision.amount > 0.0 && r.value.decision.amount * 10.0 == weight.value
    ensures r.Ok? ==> r.value.decision.severity == Therapeutic
    ensures r.Ok? ==> !r.value.needsConfirmation && !r.value.historyCritical
    ensures r.Ok? ==> r.value.protocol == DkaPhase1Initiation
    ensures r.Ok? ==> r.value.record == Some(ReadingRecord(DkaHhs, None, Some(r.value.decision.amount)))
  {
    if weight.None? || weight.value <= 0.0 then Err(InvalidWeight)
    else
      var rate := weight.value * 0.1;
      Ok(Computation(Dose(rate, Therapeutic), false, DkaPhase1Initiation, false,
                     Some(ReadingRecord(DkaHhs, None, Some(rate)))))
  }

  /** The bolus is the initiation rate's number capped at 10; the cap bites exactly above 100 kg. */
  lemma BolusIsCappedInitiation(weight: real)
    requires weight > 0.0
    ensures CalculateDkaBolus(Some(weight)).value.decision.amount
         == Min(CalculateDkaInitiation(Some(weight)).value.decision.amount, 10.0)
    ensures (CalculateDkaBolus(Some(weight)).value.decision.amount
             == CalculateDkaInitiation(Some(weight)).value.decision.amount) <==> weight <= 100.0
  {
  }

  // ---------------------------------------------------------------- phase 1 continuation

  /** Phase 1 continuation actions; the decrease comes with neuro checks q1hr x2 and BG checks q30min x2. */
  datatype Phase1Action = IncreaseByHalf | NoRateChange | DecreaseByHalfWithNeuroChecks

  datatype Phase1Decision = Phase1Decision(action: Phase1Action, newRate: real, severity: Severity)

  /** The branch chain of `calculateDkaPhase1Continuation`, keyed by the BG drop over the last hour. */
  function Phase1Continuation(rate: real, drop: real): (d: Phase1Decision)
    ensures d.action == IncreaseByHalf <==> drop <= 50.0
    ensures d.action == NoRateChange <==> 50.0 < drop <= 100.0
    ensures d.action == DecreaseByHalfWithNeuroChecks <==> drop > 100.0
    ensures d.severity == Warning <==> drop <= 50.0
    ensures d.severity == Therapeutic <==> 50.0 < drop <= 100.0
    ensures d.severity == Critical <==> drop > 100.0
    ensures drop <= 50.0 ==> d.newRate == rate * 1.5
    ensures 50.0 < drop <= 100.0 ==> d.newRate == rate
    ensures drop > 100.0 ==> d.newRate * 2.0 == rate
    ensures rate >= 0.0 ==> d.newRate >= 0.0
    ensures rate > 0.0 ==> (d.newRate > rate <==> drop <= 50.0) && (d.newRate < rate <==> drop > 100.0)
  {
    if drop <= 50.0 then Phase1Decision(IncreaseByHalf, rate * 1.5, Warning)
    else if drop > 50.0 && drop <= 100.0 then Phase1Decision(NoRateChange, rate, Therapeutic)
    else Phase1Decision(DecreaseByHalfWithNeuroChecks, rate * 0.5, Critical)
  }

  /** The decision an action stands for. */
  function ApplyPhase1(action: Phase1Action, rate: real): Phase1Decision
  {
    match action
    case IncreaseByHalf => Phase1Decision(action, rate * 1.5, Warning)
    case NoRateChange => Phase1Decision(action, rate, Therapeutic)
    case DecreaseByHalfWithNeuroChecks => Phase1Decision(action, rate * 0.5, Critical)
  }

  /** The phase 1 protocol as a table over the BG drop; a drop in neither row keeps the rate. */
  const Phase1Table: seq<Row<Phase1Action>> := [
    Row(AtMost(50.0), IncreaseByHalf),
    Row(Above(100.0), DecreaseByHalfWithNeuroChecks)
  ]

  /** The branch chain is the table: the two rows, and the middle band as the `otherwise`. */
  lemma Phase1TableAgrees(rate: real, drop: real)
    ensures Ascending(Phase1Table)
    ensures Covered(Phase1Table, drop) <==> !(50.0 < drop <= 100.0)
    ensures Phase1Continuation(rate, drop) == ApplyPhase1(Lookup(Phase1Table, drop, NoRateChange), rate)
  {
    var t := Phase1Table;
    assert Ascending(t) by {
      assert Before(t[0].range, t[1].range);
    }
    if drop <= 50.0 {
      assert InRange(drop, t[0].range);
      LookupRow(t, drop, NoRateChange, 0);
    } else if drop > 100.0 {
      assert InRange(drop, t[1].range);
      LookupRow(t, drop, NoRateChange, 1);
    } else {
      assert !Covered(t, drop) by {
        forall j | 0 <= j < |t| ensures !InRange(drop, t[j].range) {
          assert j in {0, 1};
        }
      }
      LookupUncovered(t, drop, NoRateChange);
    }
  }

  /** A larger BG drop never yields a higher new rate. */
  lemma Phase1Monotone(rate: real, drop1: real, drop2: real)
    requires rate >= 0.0 && drop1 <= drop2
    ensures Phase1Continuation(rate, drop2).newRate <= Phase1Continuation(rate, drop1).newRate
  {
  }

  /** `calculateDkaPhase1Continuation`: rejects a NaN rate or drop and a negative rate. */
  function CalculateDkaPhase1Continuation(rate: Option<real>, drop: Option<real>): (r: Result<Computation<Phase1Decision>>)
    ensures r.Err? <==> rate.None? || drop.None? || rate.value < 0.0
    ensures r.Err? ==> r.error == InvalidRateAndDrop
    ensures r.Ok? ==> r.value.decision == Phase1Continuation(rate.value, drop.value)
    ensures r.Ok? ==> !r.value.needsConfirmation && r.value.historyCritical == (drop.value > 100.0)
    ensures r.Ok? ==> r.value.protocol == DkaPhase1Continuation
    ensures r.Ok? ==> r.value.record == Some(ReadingRecord(DkaHhs, None, Some(r.value.decision.newRate)))
  {
    if rate.None? || drop.None? || rate.value < 0.0 then Err(InvalidRateAndDrop)
    else
      var d := Phase1Continuation(rate.value, drop.value);
      Ok(Computation(d, false, DkaPhase1Continuation, drop.value > 100.0,
                     Some(ReadingRecord(DkaHhs, None, Some(d.newRate)))))
  }

  // ---------------------------------------------------------------- transition

  /** The weight-based transition rate and the rate actually used, the lower of it and the current one. */
  datatype TransitionDecision = TransitionDecision(calculatedRate: real, newRate: real)

  /** `calculateDkaTransition`: a negative current rate is not rejected. */
  function CalculateDkaTransition(weight: Option<real>, rate: Option<real>): (r: Result<Computation<TransitionDecision>>)
    ensures r.Err? <==> weight.None? || weight.value <= 0.0 || rate.None?
    ensures r.Err? ==> r.error == InvalidWeightAndRate
    ensures r.Ok? ==> r.value.decision.calculatedRate * 20.0 == weight.value
    ensures r.Ok? ==> r.value.decision.newRate <= r.value.decision.calculatedRate
    ensures r.Ok? ==> r.value.decision.newRate <= rate.value
    ensures r.Ok? ==> r.value.decision.newRate == r.value.decision.calculatedRate || r.value.decision.newRate == rate.value
    ensures r.Ok? ==> !r.value.needsConfirmation && !r.value.historyCritical
    ensures r.Ok? ==> r.value.protocol == DkaTransition
    ensures r.Ok? ==> r.value.record == Some(ReadingRecord(DkaHhs, None, Some(r.value.decision.newRate)))
  {
    if weight.None? || weight.value <= 0.0 || rate.None? then Err(InvalidWeightAndRate)
    else
      var calculated := weight.value * 0.05;
      var newRate := Min(calculated, rate.value);
      Ok(Computation(TransitionDecision(calculated, newRate), false, DkaTransition, false,
                     Some(ReadingRecord(DkaHhs, None, Some(newRate)))))
  }

  // ---------------------------------------------------------------- phase 2

  /** Phase 2 actions; halving below 70 means stopping and later resuming at half the rate. */
  datatype Phase2Action = IncreaseRateBy(units: real) | KeepRate | HalveAndRecheck | StopAndResumeAtHalf

  datatype Phase2Decision = Phase2Decision(action: Phase2Action, newRate: real, severity: Severity)

  /** The branch chain of `calculateDkaPhase2`, keyed by the current BG. */
  function Phase2Titration(rate: real, bg: int): (d: Phase2Decision)
    ensures d.action == IncreaseRateBy(2.0) <==> bg > 250
    ensures d.action == IncreaseRateBy(1.0) <==> 201 <= bg <= 250
    ensures d.action == KeepRate <==> 150 <= bg <= 200
    ensures d.action == HalveAndRecheck <==> 70 <= bg < 150
    ensures d.action == StopAndResumeAtHalf <==> bg < 70
    ensures d.severity == Therapeutic <==> 150 <= bg <= 200
    ensures d.severity == Critical <==> bg < 70
    ensures rate >= 0.0 ==> 0.0 <= d.newRate <= rate + 2.0
    ensures bg < 150 ==> d.newRate * 2.0 == rate
  {
    if bg > 250 then Phase2Decision(IncreaseRateBy(2.0), rate + 2.0, Warning)
    else if bg >= 201 then Phase2Decision(IncreaseRateBy(1.0), rate + 1.0, Warning)
    else if bg >= 150 then Phase2Decision(KeepRate, rate, Therapeutic)
    else if bg >= 70 then Phase2Decision(HalveAndRecheck, rate * 0.5, Warning)
    else Phase2Decision(StopAndResumeAtHalf, rate * 0.5, Critical)
  }

  /** The decision an action stands for. */
  function ApplyPhase2(action: Phase2Action, rate: real): Phase2Decision
  {
    match action
    case IncreaseRateBy(u) => Phase2Decision(action, rate + u, Warning)
    case KeepRate => Phase2Decision(action, rate, Therapeutic)
    case HalveAndRecheck => Phase2Decision(action, rate * 0.5, Warning)
    case StopAndResumeAtHalf => Phase2Decision(action, rate * 0.5, Critical)
  }

  /** The phase 2 protocol as an ascending table over whole-number BG values. */
  const Phase2Table: seq<Row<Phase2Action>> := [
    Row(Below(70.0), StopAndResumeAtHalf),
    Row(Between(70.0, 149.0), HalveAndRecheck),
    Row(Between(150.0, 200.0), KeepRate),
    Row(Between(201.0, 250.0), IncreaseRateBy(1.0)),
    Row(Above(250.0), IncreaseRateBy(2.0))
  ]

  /** Every whole-number BG falls into exactly one row: the phase 2 table has no gap and no overlap. */
  lemma Phase2Exhaustive(bg: int)
    ensures ExactlyOneRow(Phase2Table, bg as real)
  {
    var t := Phase2Table;
    var x := bg as real;
    assert Ascending(t);
    var j := if bg < 70 then 0 else if bg <= 149 then 1 else if bg <= 200 then 2 else if bg <= 250 then 3 else 4;
    assert InRange(x, t[j].range);
    forall k | 0 <= k < |t| && InRange(x, t[k].range) ensures k == j {
      NoOverlap(t, j, k, x);
    }
    assert OnlyRow(t, x, j);
  }

  /** The branch chain is the table. */
  lemma Phase2TableAgrees(rate: real, bg: int)
    ensures Phase2Titration(rate, bg) == ApplyPhase2(Lookup(Phase2Table, bg as real, StopAndResumeAtHalf), rate)
  {
    var t := Phase2Table;
    var x := bg as real;
    assert Ascending(t);
    if bg < 70 { LookupRow(t, x, StopAndResumeAtHalf, 0); }
    else if bg <= 149 { LookupRow(t, x, StopAndResumeAtHalf, 1); }
    else if bg <= 200 { LookupRow(t, x, StopAndResumeAtHalf, 2); }
    else if bg <= 250 { LookupRow(t, x, StopAndResumeAtHalf, 3); }
    else { LookupRow(t, x, StopAndResumeAtHalf, 4); }
  }

  /** For a non-negative rate, a higher BG never yields a lower new rate, and the new rate is non-negative. */
  lemma Phase2Monotone(rate: real, bg1: int, bg2: int)
    requires rate >= 0.0 && bg1 <= bg2
    ensures 0.0 <= Phase2Titration(rate, bg1).newRate <= Phase2Titration(rate, bg2).newRate
  {
  }

  /** `calculateDkaPhase2`: only a NaN rate or BG is rejected. */
  function CalculateDkaPhase2(rate: Option<real>, bg: Option<int>): (r: Result<Computation<Phase2Decision>>)
    ensures r.Err? <==> rate.None? || bg.None?
    ensures r.Err? ==> r.error == InvalidPhase2Inputs
    ensures r.Ok? ==> r.value.decision == Phase2Titration(rate.value, bg.value)
    ensures r.Ok? ==> !r.value.needsConfirmation && r.value.historyCritical == (bg.value < 70)
    ensures r.Ok? ==> r.value.protocol == DkaPhase2
    ensures r.Ok? ==> r.value.record == Some(ReadingRecord(DkaHhs, Some(bg.value as real), Some(r.value.decision.newRate)))
  {
    if rate.None? || bg.None? then Err(InvalidPhase2Inputs)
    else
      var d := Phase2Titration(rate.value, bg.value);
      Ok(Computation(d, false, DkaPhase2, bg.value < 70,
                     Some(ReadingRecord(DkaHhs, Some(bg.value as real), Some(d.newRate)))))
  }
}
