/**
 * The monitoring engine: four timestamped reading lists (DKA/HHS and non-DKA, glucose and infusion
 * rate) kept for 24 hours, three cooldown markers, and the flags raised when a sliding window of
 * readings meets a condition. Every timestamp is in milliseconds; the clock is the `now` argument.
 */
module Monitoring {
  import opened Wrappers
  import opened Common

  datatype Reading = Reading(timestamp: int, value: real)

  /** 'dka-bg-high', 'dka-rate-low' and 'non-dka-stable'; each kind has one fixed message. */
  datatype FlagKind = DkaBgHigh | DkaRateLow | NonDkaStable

  /** A flag's id is `Date.now() + Math.random()` on the page, so it is an argument here. */
  datatype Flag = Flag(id: real, kind: FlagKind, severity: Severity, timestamp: int, acknowledged: bool)

  /** The three choices of `clearTrackingData`: 'bg', 'rates' and 'all'. */
  datatype ClearKind = ClearBg | ClearRates | ClearAll

  const RetentionMs: int := DayMs
  const HighBgWindowMs: int := 2 * HourMs
  const LowRateWindowMs: int := 4 * HourMs
  const StableWindowMs: int := 6 * HourMs
  const CooldownMs: int := HourMs

  // ---------------------------------------------------------------- the reading lists

  /** The readings kept after an insertion: those strictly newer than 24 hours before `now`. */
  function Retained(s: seq<Reading>, now: int): seq<Reading>
  {
    Filter(s, (x: Reading) => x.timestamp > now - RetentionMs)
  }

  /** A list after `addMonitoringData` offered it a value: unchanged for null, else pushed and trimmed. */
  function Appended(s: seq<Reading>, v: Option<real>, now: int): seq<Reading>
  {
    if v.None? then s else Retained(s + [Reading(now, v.value)], now)
  }

  /** The new reading is kept, last, after the older readings that are still within 24 hours. */
  lemma AppendedKeepsNewest(s: seq<Reading>, v: real, now: int)
    ensures Appended(s, Some(v), now) == Retained(s, now) + [Reading(now, v)]
    ensures forall i :: 0 <= i < |Appended(s, Some(v), now)| ==> Appended(s, Some(v), now)[i].timestamp > now - RetentionMs
  {
    var p := (x: Reading) => x.timestamp > now - RetentionMs;
    FilterAppend(s, [Reading(now, v)], p);
    assert Filter([Reading(now, v)], p) == [Reading(now, v)];
  }

  /** The readings of the last `window` ms, bounds included. */
  function Recent(s: seq<Reading>, now: int, window: int): seq<Reading>
  {
    Filter(s, (x: Reading) => x.timestamp >= now - window)
  }

  /** Trimming to 24 hours leaves every shorter window as it was, so it cannot change a check. */
  lemma RetentionKeepsWindows(s: seq<Reading>, now: int, window: int)
    requires window < RetentionMs
    ensures Recent(Retained(s, now), now, window) == Recent(s, now, window)
  {
    var p := (x: Reading) => x.timestamp > now - RetentionMs;
    var q := (x: Reading) => x.timestamp >= now - window;
    FilterFilter(s, p, q);
  }

  // ---------------------------------------------------------------- the conditions

  predicate IsHigh(x: Reading) { x.value > 250.0 }
  predicate IsLow(x: Reading) { x.value < 2.0 }
  predicate IsStable(x: Reading) { 100.0 <= x.value <= 180.0 }

  /** The DKA glucose test as written: two high readings, two readings, and every one of them high. */
  predicate HighBgAlert(bg: seq<Reading>, now: int)
  {
    var recent := Recent(bg, now, HighBgWindowMs);
    |Filter(recent, IsHigh)| >= 2 && |recent| >= 2 && Every(recent, IsHigh)
  }

  /** The DKA rate test as written, over four hours. */
  predicate LowRateAlert(rates: seq<Reading>, now: int)
  {
    var recent := Recent(rates, now, LowRateWindowMs);
    |Filter(recent, IsLow)| >= 2 && |recent| >= 2 && Every(recent, IsLow)
  }

  /** The non-DKA stability test: at least three readings in six hours, all within 100-180. */
  predicate StableAlert(bg: seq<Reading>, now: int)
  {
    var recent := Recent(bg, now, StableWindowMs);
    |recent| >= 3 && Every(recent, IsStable)
  }

  /** The count of high readings adds nothing: the glucose alert is "at least two, all high". */
  lemma HighCountRedundant(bg: seq<Reading>, now: int)
    ensures HighBgAlert(bg, now) <==>
      (|Recent(bg, now, HighBgWindowMs)| >= 2 && Every(Recent(bg, now, HighBgWindowMs), IsHigh))
  {
    var recent := Recent(bg, now, HighBgWindowMs);
    if Every(recent, IsHigh) {
      FilterAll(recent, IsHigh);
    }
  }

  /** Likewise for the rate alert. */
  lemma LowCountRedundant(rates: seq<Reading>, now: int)
    ensures LowRateAlert(rates, now) <==>
      (|Recent(rates, now, LowRateWindowMs)| >= 2 && Every(Recent(rates, now, LowRateWindowMs), IsLow))
  {
    var recent := Recent(rates, now, LowRateWindowMs);
    if Every(recent, IsLow) {
      FilterAll(recent, IsLow);
    }
  }

  /** None of the three alerts depends on readings older than 24 hours. */
  lemma AlertsIgnoreRetention(s: seq<Reading>, now: int)
    ensures HighBgAlert(Retained(s, now), now) == HighBgAlert(s, now)
    ensures LowRateAlert(Retained(s, now), now) == LowRateAlert(s, now)
    ensures StableAlert(Retained(s, now), now) == StableAlert(s, now)
  {
    RetentionKeepsWindows(s, now, HighBgWindowMs);
    RetentionKeepsWindows(s, now, LowRateWindowMs);
    RetentionKeepsWindows(s, now, StableWindowMs);
  }

  /** A marker lets its flag fire when it is unset or more than one hour (strictly) old. */
  predicate CooledDown(last: Option<int>, now: int)
  {
    last.None? || now - last.value > CooldownMs
  }

  /** A flag of this kind is raised now, given its readings and its marker. */
  predicate BgFlagDue(bg: seq<Reading>, last: Option<int>, now: int)
  {
    HighBgAlert(bg, now) && CooledDown(last, now)
  }

  predicate RateFlagDue(rates: seq<Reading>, last: Option<int>, now: int)
  {
    LowRateAlert(rates, now) && CooledDown(last, now)
  }

  predicate StableFlagDue(bg: seq<Reading>, last: Option<int>, now: int)
  {
    StableAlert(bg, now) && CooledDown(last, now)
  }

  /** The marker after a check: moved to `now` exactly when the flag was raised. */
  function NextMarker(due: bool, last: Option<int>, now: int): Option<int>
  {
    if due then Some(now) else last
  }

  /** The flag list grows by the one flag when it is due, and not at all otherwise. */
  function Raised(due: bool, f: Flag): seq<Flag>
  {
    if due then [f] else []
  }

  /** Once a flag has been raised at `t1`, no flag of its kind is raised again within the next hour. */
  lemma CooldownSuppresses(bg: seq<Reading>, rates: seq<Reading>, t1: int, t2: int)
    requires t1 <= t2 <= t1 + CooldownMs
    ensures !BgFlagDue(bg, Some(t1), t2) && !RateFlagDue(rates, Some(t1), t2) && !StableFlagDue(bg, Some(t1), t2)
  {
  }

  /**
   * Two readings above 250 half an hour apart raise the glucose flag on the second one; a third
   * half an hour later meets the condition again but is within the hour of cooldown.
   */
  lemma HighBgScenario(t0: int)
    ensures !HighBgAlert([Reading(t0, 300.0)], t0)
    ensures BgFlagDue([Reading(t0, 300.0), Reading(t0 + 30 * MinuteMs, 320.0)], None, t0 + 30 * MinuteMs)
    ensures HighBgAlert([Reading(t0, 300.0), Reading(t0 + 30 * MinuteMs, 320.0), Reading(t0 + 60 * MinuteMs, 310.0)],
                        t0 + 60 * MinuteMs)
    ensures !CooledDown(Some(t0 + 30 * MinuteMs), t0 + 60 * MinuteMs)
  {
    var r0, r1, r2 := Reading(t0, 300.0), Reading(t0 + 30 * MinuteMs, 320.0), Reading(t0 + 60 * MinuteMs, 310.0);
    var inWindow := (x: Reading) => x.timestamp >= t0 - HighBgWindowMs;
    assert Recent([r0], t0, HighBgWindowMs) == [r0] by {
      FilterAll([r0], inWindow);
    }
    var inWindow1 := (x: Reading) => x.timestamp >= t0 + 30 * MinuteMs - HighBgWindowMs;
    assert Recent([r0, r1], t0 + 30 * MinuteMs, HighBgWindowMs) == [r0, r1] by {
      FilterAll([r0, r1], inWindow1);
    }
    FilterAll([r0, r1], IsHigh);
    var inWindow2 := (x: Reading) => x.timestamp >= t0 + 60 * MinuteMs - HighBgWindowMs;
    assert Recent([r0, r1, r2], t0 + 60 * MinuteMs, HighBgWindowMs) == [r0, r1, r2] by {
      FilterAll([r0, r1, r2], inWindow2);
    }
    FilterAll([r0, r1, r2], IsHigh);
  }

  // ---------------------------------------------------------------- flags

  /** `activeFlags.find(f => f.id === id)`: the index of the first flag with that id. */
  function FindFlag(flags: seq<Flag>, id: real): (k: Option<nat>)
    ensures k.Some? ==> k.value < |flags| && flags[k.value].id == id
    ensures k.Some? ==> forall j :: 0 <= j < k.value ==> flags[j].id != id
    ensures k.None? <==> forall j :: 0 <= j < |flags| ==> flags[j].id != id
  {
    if flags == [] then None
    else if flags[0].id == id then Some(0)
    else match FindFlag(flags[1..], id)
      case None => None
      case Some(k) => Some(k + 1)
  }

  /** The flags after `acknowledgeFlag`: the first flag with that id marked acknowledged. */
  function Acknowledge(flags: seq<Flag>, id: real): (r: seq<Flag>)
    ensures |r| == |flags|
    ensures forall i :: 0 <= i < |r| ==> r[i] == flags[i] || r[i] == flags[i].(acknowledged := true)
    ensures forall i :: 0 <= i < |r| && r[i] != flags[i] ==> FindFlag(flags, id) == Some(i)
    ensures FindFlag(flags, id).Some? ==> r[FindFlag(flags, id).value].acknowledged
  {
    match FindFlag(flags, id)
    case None => flags
    case Some(k) => flags[k := flags[k].(acknowledged := true)]
  }

  /** Acknowledging twice is acknowledging once. */
  lemma AcknowledgeIdempotent(flags: seq<Flag>, id: real)
    ensures Acknowledge(Acknowledge(flags, id), id) == Acknowledge(flags, id)
  {
    var once := Acknowledge(flags, id);
    assert forall j :: 0 <= j < |flags| ==> once[j].id == flags[j].id;
    assert FindFlag(once, id) == FindFlag(flags, id) by {
      FindFlagSameIds(flags, once, id);
    }
  }

  /** The first index of an id depends only on the ids. */
  lemma {:induction false} FindFlagSameIds(a: seq<Flag>, b: seq<Flag>, id: real)
    requires |a| == |b| && forall j :: 0 <= j < |a| ==> a[j].id == b[j].id
    ensures FindFlag(a, id) == FindFlag(b, id)
  {
    if a != [] {
      FindFlagSameIds(a[1..], b[1..], id);
    }
  }

  /** An id no flag carries changes nothing. */
  lemma AcknowledgeUnknown(flags: seq<Flag>, id: real)
    requires forall j :: 0 <= j < |flags| ==> flags[j].id != id
    ensures Acknowledge(flags, id) == flags
  {
  }

  /** The flags after `clearFlag`: all with that id removed, the rest in order. */
  function WithoutFlag(flags: seq<Flag>, id: real): (r: seq<Flag>)
    ensures forall i :: 0 <= i < |r| ==> r[i].id != id
    ensures forall i :: 0 <= i < |flags| && flags[i].id != id ==> flags[i] in r
  {
    Filter(flags, (f: Flag) => f.id != id)
  }

  /** Clearing keeps the order: clearing a concatenation clears each part. */
  lemma WithoutFlagAppend(a: seq<Flag>, b: seq<Flag>, id: real)
    ensures WithoutFlag(a + b, id) == WithoutFlag(a, id) + WithoutFlag(b, id)
  {
    FilterAppend(a, b, (f: Flag) => f.id != id);
  }

  /** After a clear there is nothing left to acknowledge under that id. */
  lemma AcknowledgeAfterClear(flags: seq<Flag>, id: real)
    ensures Acknowledge(WithoutFlag(flags, id), id) == WithoutFlag(flags, id)
  {
    AcknowledgeUnknown(WithoutFlag(flags, id), id);
  }

  // ---------------------------------------------------------------- the store

  class Monitor {
    var dkaBg: seq<Reading>
    var dkaRates: seq<Reading>
    var nonDkaBg: seq<Reading>
    var nonDkaRates: seq<Reading>
    var lastBgFlag: Option<int>
    var lastRateFlag: Option<int>
    var lastStableFlag: Option<int>
    var activeFlags: seq<Flag>

    /** The four reading lists. */
    function Readings(): (seq<Reading>, seq<Reading>, seq<Reading>, seq<Reading>)
      reads this
    {
      (dkaBg, dkaRates, nonDkaBg, nonDkaRates)
    }

    /** The three cooldown markers. */
    function Markers(): (Option<int>, Option<int>, Option<int>)
      reads this
    {
      (lastBgFlag, lastRateFlag, lastStableFlag)
    }

    constructor ()
      ensures Readings() == ([], [], [], []) && Markers() == (None, None, None) && activeFlags == []
    {
      dkaBg, dkaRates, nonDkaBg, nonDkaRates := [], [], [], [];
      lastBgFlag, lastRateFlag, lastStableFlag := None, None, None;
      activeFlags := [];
    }

    /** `addFlag`: one new, unacknowledged flag at the end. */
    method AddFlag(kind: FlagKind, severity: Severity, id: real, now: int)
      modifies this
      ensures activeFlags == old(activeFlags) + [Flag(id, kind, severity, now, false)]
      ensures Readings() == old(Readings()) && Markers() == old(Markers())
    {
      activeFlags := activeFlags + [Flag(id, kind, severity, now, false)];
    }

    /** `checkDkaHhsConditions`: the glucose test over two hours, then the rate test over four. */
    method CheckDkaHhsConditions(now: int, bgFlagId: real, rateFlagId: real)
      modifies this
      ensures Readings() == old(Readings()) && lastStableFlag == old(lastStableFlag)
      ensures lastBgFlag == NextMarker(BgFlagDue(dkaBg, old(lastBgFlag), now), old(lastBgFlag), now)
      ensures lastRateFlag == NextMarker(RateFlagDue(dkaRates, old(lastRateFlag), now), old(lastRateFlag), now)
      ensures activeFlags == old(activeFlags)
        + Raised(BgFlagDue(dkaBg, old(lastBgFlag), now), Flag(bgFlagId, DkaBgHigh, Critical, now, false))
        + Raised(RateFlagDue(dkaRates, old(lastRateFlag), now), Flag(rateFlagId, DkaRateLow, Critical, now, false))
    {
      CheckHighBg(now, bgFlagId);
      CheckLowRate(now, rateFlagId);
    }

    /** The first half of `checkDkaHhsConditions`: every DKA glucose of the last two hours above 250. */
    method CheckHighBg(now: int, bgFlagId: real)
      modifies this
      ensures Readings() == old(Readings()) && lastRateFlag == old(lastRateFlag) && lastStableFlag == old(lastStableFlag)
      ensures lastBgFlag == NextMarker(BgFlagDue(dkaBg, old(lastBgFlag), now), old(lastBgFlag), now)
      ensures activeFlags == old(activeFlags)
        + Raised(BgFlagDue(dkaBg, old(lastBgFlag), now), Flag(bgFlagId, DkaBgHigh, Critical, now, false))
    {
      var recentBg := Recent(dkaBg, now, HighBgWindowMs);
      var highBg := Filter(recentBg, IsHigh);
      if |highBg| >= 2 && |recentBg| >= 2 {
        var allHigh := Every(recentBg, IsHigh);
        if allHigh && (lastBgFlag.None? || now - lastBgFlag.value > CooldownMs) {
          AddFlag(DkaBgHigh, Critical, bgFlagId, now);
          lastBgFlag := Some(now);
        }
      }
    }

    /** The second half of `checkDkaHhsConditions`: every DKA rate of the last four hours below 2. */
    method CheckLowRate(now: int, rateFlagId: real)
      modifies this
      ensures Readings() == old(Readings()) && lastBgFlag == old(lastBgFlag) && lastStableFlag == old(lastStableFlag)
      ensures lastRateFlag == NextMarker(RateFlagDue(dkaRates, old(lastRateFlag), now), old(lastRateFlag), now)
      ensures activeFlags == old(activeFlags)
        + Raised(RateFlagDue(dkaRates, old(lastRateFlag), now), Flag(rateFlagId, DkaRateLow, Critical, now, false))
    {
      var recentRates := Recent(dkaRates, now, LowRateWindowMs);
      var lowRates := Filter(recentRates, IsLow);
      if |lowRates| >= 2 && |recentRates| >= 2 {
        var allLow := Every(recentRates, IsLow);
        if allLow && (lastRateFlag.None? || now - lastRateFlag.value > CooldownMs) {
          AddFlag(DkaRateLow, Critical, rateFlagId, now);
          lastRateFlag := Some(now);
        }
      }
    }

    /** `checkNonDkaConditions`: the stability test over six hours; its flag is informational. */
    method CheckNonDkaConditions(now: int, stableFlagId: real)
      modifies this
      ensures Readings() == old(Readings()) && lastBgFlag == old(lastBgFlag) && lastRateFlag == old(lastRateFlag)
      ensures lastStableFlag == NextMarker(StableFlagDue(nonDkaBg, old(lastStableFlag), now), old(lastStableFlag), now)
      ensures activeFlags == old(activeFlags)
        + Raised(StableFlagDue(nonDkaBg, old(lastStableFlag), now), Flag(stableFlagId, NonDkaStable, Info, now, false))
    {
      var recentBg := Recent(nonDkaBg, now, StableWindowMs);
      if |recentBg| >= 3 {
        var allStable := Every(recentBg, IsStable);
        if allStable && (lastStableFlag.None? || now - lastStableFlag.value > CooldownMs) {
          AddFlag(NonDkaStable, Info, stableFlagId, now);
          lastStableFlag := Some(now);
        }
      }
    }

    /**
     * `addMonitoringData`: push the non-null values onto the record's family lists, trim each list
     * that grew to 24 hours, then run both families' checks.
     */
    method AddMonitoringData(record: ReadingRecord, now: int, bgFlagId: real, rateFlagId: real, stableFlagId: real)
      modifies this
      ensures dkaBg == if record.family == DkaHhs then Appended(old(dkaBg), record.bg, now) else old(dkaBg)
      ensures dkaRates == if record.family == DkaHhs then Appended(old(dkaRates), record.rate, now) else old(dkaRates)
      ensures nonDkaBg == if record.family == NonDka then Appended(old(nonDkaBg), record.bg, now) else old(nonDkaBg)
      ensures nonDkaRates == if record.family == NonDka then Appended(old(nonDkaRates), record.rate, now) else old(nonDkaRates)
      ensures lastBgFlag == NextMarker(BgFlagDue(dkaBg, old(lastBgFlag), now), old(lastBgFlag), now)
      ensures lastRateFlag == NextMarker(RateFlagDue(dkaRates, old(lastRateFlag), now), old(lastRateFlag), now)
      ensures lastStableFlag == NextMarker(StableFlagDue(nonDkaBg, old(lastStableFlag), now), old(lastStableFlag), now)
      ensures activeFlags == old(activeFlags)
        + Raised(BgFlagDue(dkaBg, old(lastBgFlag), now), Flag(bgFlagId, DkaBgHigh, Critical, now, false))
        + Raised(RateFlagDue(dkaRates, old(lastRateFlag), now), Flag(rateFlagId, DkaRateLow, Critical, now, false))
        + Raised(StableFlagDue(nonDkaBg, old(lastStableFlag), now), Flag(stableFlagId, NonDkaStable, Info, now, false))
    {
      StoreReading(record, now);
      CheckDkaHhsConditions(now, bgFlagId, rateFlagId);
      CheckNonDkaConditions(now, stableFlagId);
    }

    /** The first part of `addMonitoringData`: push each non-null value, then trim that list to 24 hours. */
    method StoreReading(record: ReadingRecord, now: int)
      modifies this
      ensures dkaBg == if record.family == DkaHhs then Appended(old(dkaBg), record.bg, now) else old(dkaBg)
      ensures dkaRates == if record.family == DkaHhs then Appended(old(dkaRates), record.rate, now) else old(dkaRates)
      ensures nonDkaBg == if record.family == NonDka then Appended(old(nonDkaBg), record.bg, now) else old(nonDkaBg)
      ensures nonDkaRates == if record.family == NonDka then Appended(old(nonDkaRates), record.rate, now) else old(nonDkaRates)
      ensures Markers() == old(Markers()) && activeFlags == old(activeFlags)
    {
      if record.family == DkaHhs {
        if record.bg.Some? {
          dkaBg := dkaBg + [Reading(now, record.bg.value)];
          dkaBg := Filter(dkaBg, (x: Reading) => x.timestamp > now - RetentionMs);
        }
        if record.rate.Some? {
          dkaRates := dkaRates + [Reading(now, record.rate.value)];
          dkaRates := Filter(dkaRates, (x: Reading) => x.timestamp > now - RetentionMs);
        }
      } else {
        if record.bg.Some? {
          nonDkaBg := nonDkaBg + [Reading(now, record.bg.value)];
          nonDkaBg := Filter(nonDkaBg, (x: Reading) => x.timestamp > now - RetentionMs);
        }
        if record.rate.Some? {
          nonDkaRates := nonDkaRates + [Reading(now, record.rate.value)];
          nonDkaRates := Filter(nonDkaRates, (x: Reading) => x.timestamp > now - RetentionMs);
        }
      }
    }

    /** `acknowledgeFlag`: mark the first flag with that id; an unknown id changes nothing. */
    method AcknowledgeFlag(id: real)
      modifies this
      ensures activeFlags == Acknowledge(old(activeFlags), id)
      ensures Readings() == old(Readings()) && Markers() == old(Markers())
    {
      var k := FindFlag(activeFlags, id);
      if k.Some? {
        activeFlags := activeFlags[k.value := activeFlags[k.value].(acknowledged := true)];
      }
    }

    /** `clearFlag`: drop every flag with that id. */
    method ClearFlag(id: real)
      modifies this
      ensures activeFlags == WithoutFlag(old(activeFlags), id)
      ensures Readings() == old(Readings()) && Markers() == old(Markers())
    {
      activeFlags := Filter(activeFlags, (f: Flag) => f.id != id);
    }

    /**
     * `clearTrackingData`: once confirmed, empty the named lists of both families and report how
     * many readings went; only clearing everything resets the markers. Flags stay.
     */
    method ClearTrackingData(kind: ClearKind, confirmed: bool) returns (cleared: Option<nat>)
      modifies this
      ensures !confirmed ==> cleared.None? && Readings() == old(Readings()) && Markers() == old(Markers())
      ensures confirmed && kind == ClearBg ==>
        cleared == Some(|old(dkaBg)| + |old(nonDkaBg)|)
        && Readings() == ([], old(dkaRates), [], old(nonDkaRates)) && Markers() == old(Markers())
      ensures confirmed && kind == ClearRates ==>
        cleared == Some(|old(dkaRates)| + |old(nonDkaRates)|)
        && Readings() == (old(dkaBg), [], old(nonDkaBg), []) && Markers() == old(Markers())
      ensures confirmed && kind == ClearAll ==>
        cleared == Some(|old(dkaBg)| + |old(dkaRates)| + |old(nonDkaBg)| + |old(nonDkaRates)|)
        && Readings() == ([], [], [], []) && Markers() == (None, None, None)
      ensures activeFlags == old(activeFlags)
    {
      if !confirmed {
        return None;
      }
      var count := 0;
      match kind {
        case ClearBg =>
          count := count + |dkaBg|;
          count := count + |nonDkaBg|;
          dkaBg := [];
          nonDkaBg := [];
        case ClearRates =>
          count := count + |dkaRates|;
          count := count + |nonDkaRates|;
          dkaRates := [];
          nonDkaRates := [];
        case ClearAll =>
          count := count + |dkaBg|;
          count := count + |dkaRates|;
          count := count + |nonDkaBg|;
          count := count + |nonDkaRates|;
          dkaBg, dkaRates, nonDkaBg, nonDkaRates := [], [], [], [];
          lastBgFlag, lastRateFlag, lastStableFlag := None, None, None;
      }
      cleared := Some(count);
    }
  }
}
