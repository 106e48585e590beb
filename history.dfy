/**
 * The calculation history: every completed calculation is put at the front of a list that keeps
 * the 50 most recent entries.
 */
module History {
  import opened Common

  /** An entry's id is the clock reading (ms) at which it was added; its text is not modelled. */
  datatype HistoryEntry = HistoryEntry(id: int, protocol: Protocol, critical: bool)

  const HistoryLimit: nat := 50

  /** The history after one `addToHistory`: the new entry first, then as many older ones as fit. */
  function Prepended(history: seq<HistoryEntry>, e: HistoryEntry): (r: seq<HistoryEntry>)
    ensures |r| == if |history| < HistoryLimit then |history| + 1 else HistoryLimit
    ensures r[0] == e
    ensures r[1..] == history[..|r| - 1]
  {
    var h := [e] + history;
    if |h| > HistoryLimit then h[..HistoryLimit] else h
  }

  function Reverse<T>(s: seq<T>): (r: seq<T>)
    ensures |r| == |s|
    ensures forall i :: 0 <= i < |s| ==> r[i] == s[|s| - 1 - i]
  {
    if s == [] then [] else [s[|s| - 1]] + Reverse(s[..|s| - 1])
  }

  /** The history built by adding `added` one after another to an empty history. */
  function Replay(added: seq<HistoryEntry>): seq<HistoryEntry>
  {
    if added == [] then [] else Prepended(Replay(added[..|added| - 1]), added[|added| - 1])
  }

  /** The history holds the most recent entries, newest first, and never more than 50. */
  lemma {:induction false} ReplayKeepsNewest(added: seq<HistoryEntry>)
    ensures |Replay(added)| == if |added| < HistoryLimit then |added| else HistoryLimit
    ensures Replay(added) == Reverse(added)[..|Replay(added)|]
  {
    if added != [] {
      var n := |added|;
      var prefix := added[..n - 1];
      ReplayKeepsNewest(prefix);
      var r := Replay(added);
      var rev := Reverse(added);
      assert r == Prepended(Replay(prefix), added[n - 1]);
      forall i | 0 <= i < |r| ensures r[i] == rev[i] {
        if i > 0 {
          assert r[i] == r[1..][i - 1];
          assert r[1..][i - 1] == Replay(prefix)[i - 1];
          assert Replay(prefix)[i - 1] == Reverse(prefix)[i - 1];
        }
      }
    }
  }

  /** The bound is an invariant of every history reachable by adding entries. */
  lemma BoundPreserved(history: seq<HistoryEntry>, e: HistoryEntry)
    requires |history| <= HistoryLimit
    ensures |Prepended(history, e)| <= HistoryLimit
    ensures history != [] ==> Prepended(history, e)[1] == history[0]
  {
  }

  class CalculationHistory {
    var entries: seq<HistoryEntry>

    constructor ()
      ensures entries == []
    {
      entries := [];
    }

    /** `addToHistory`: unshift the entry, then cut the list back to 50. */
    method AddToHistory(protocol: Protocol, critical: bool, now: int)
      modifies this
      ensures entries == Prepended(old(entries), HistoryEntry(now, protocol, critical))
    {
      entries := [HistoryEntry(now, protocol, critical)] + entries;
      if |entries| > HistoryLimit {
        entries := entries[..HistoryLimit];
      }
    }

    /** The history entry a completed calculation adds: its protocol name and critical mark. */
    method Record<D>(c: Computation<D>, now: int)
      modifies this
      ensures entries == Prepended(old(entries), HistoryEntry(now, c.protocol, c.historyCritical))
    {
      AddToHistory(c.protocol, c.historyCritical, now);
    }
  }
}
