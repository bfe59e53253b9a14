/**
 * The per-user activity log: newest entry first, capped by popping the
 * oldest entry when a new one pushes it over 50.
 */
module History {
  import opened Bins

  /**
   * One line of the log. Carbon impact is in tenths of a kilogram of CO2e;
   * points is what the action added (negative for a redemption).
   */
  datatype HistoryEntry = HistoryEntry(
    timestamp: Timestamp,
    action: string,
    binLocation: string,
    binType: string,
    points: int,
    carbonImpact: int)

  const MaxHistory: nat := 50

  /**
   * `addHistoryEntry` on the log's value: put the entry in front, then drop
   * the last entry if the log is now longer than 50.
   */
  function Prepend(log: seq<HistoryEntry>, e: HistoryEntry): (r: seq<HistoryEntry>)
    ensures |r| == if |log| + 1 > MaxHistory then |log| else |log| + 1
    ensures r[0] == e
    ensures r[1..] == log[..|r| - 1]
  {
    var grown := [e] + log;
    if |grown| > MaxHistory then grown[..|grown| - 1] else grown
  }

  /** A log of at most 50 entries stays at most 50 entries long. */
  lemma PrependKeepsBound(log: seq<HistoryEntry>, e: HistoryEntry)
    requires |log| <= MaxHistory
    ensures |Prepend(log, e)| <= MaxHistory
  {
  }

  /**
   * Only one entry is popped per call, so a log that is already over the
   * cap keeps its length: the cap is a bound that is preserved, not one that
   * is restored.
   */
  lemma PrependOverfullKeepsLength(log: seq<HistoryEntry>, e: HistoryEntry)
    requires |log| > MaxHistory
    ensures |Prepend(log, e)| == |log| > MaxHistory
  {
  }

  /** The first (at most) 50 entries of s: the 50 most recent. */
  function Newest(s: seq<HistoryEntry>): (r: seq<HistoryEntry>)
  {
    if |s| > MaxHistory then s[..MaxHistory] else s
  }

  /** The entries of s in reverse order. */
  function Reversed(s: seq<HistoryEntry>): (r: seq<HistoryEntry>)
    ensures |r| == |s|
    ensures forall i :: 0 <= i < |s| ==> r[i] == s[|s| - 1 - i]
  {
    if s == [] then [] else Reversed(s[1..]) + [s[0]]
  }

  /** The log after adding the entries es, es[0] first. */
  function AddAll(log: seq<HistoryEntry>, es: seq<HistoryEntry>): seq<HistoryEntry>
    decreases |es|
  {
    if es == [] then log else AddAll(Prepend(log, es[0]), es[1..])
  }

  /** On a log within the cap, one Prepend keeps the 50 newest entries. */
  lemma PrependIsNewest(log: seq<HistoryEntry>, e: HistoryEntry)
    requires |log| <= MaxHistory
    ensures Prepend(log, e) == Newest([e] + log)
  {
  }

  /** Cutting b to its 50 newest entries first does not change the 50 newest of a + b. */
  lemma NewestOfAppend(a: seq<HistoryEntry>, b: seq<HistoryEntry>)
    ensures Newest(a + Newest(b)) == Newest(a + b)
  {
    if |b| > MaxHistory {
      if |a| >= MaxHistory {
        assert (a + b[..MaxHistory])[..MaxHistory] == a[..MaxHistory] == (a + b)[..MaxHistory];
      } else {
        assert (a + b[..MaxHistory])[..MaxHistory] == (a + b)[..MaxHistory];
      }
    }
  }

  /**
   * Repeated adds on a log within the cap keep exactly the 50 most recent
   * entries, newest first.
   */
  lemma {:induction false} AddAllKeepsNewest(log: seq<HistoryEntry>, es: seq<HistoryEntry>)
    requires |log| <= MaxHistory
    ensures AddAll(log, es) == Newest(Reversed(es) + log)
    ensures |AddAll(log, es)| <= MaxHistory
    decreases |es|
  {
    if es != [] {
      var p := Prepend(log, es[0]);
      PrependIsNewest(log, es[0]);
      AddAllKeepsNewest(p, es[1..]);
      NewestOfAppend(Reversed(es[1..]), [es[0]] + log);
      assert Reversed(es[1..]) + ([es[0]] + log) == Reversed(es) + log;
    }
  }
}
