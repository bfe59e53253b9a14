/**
 * The suggestion list under the map: every bin, least full first, ties
 * broken by distance from the user when the user's position is known.
 */
module Suggestions {
  import opened Wrappers
  import opened Waste
  import opened Bins

  /**
   * A bin paired with its distance from the user, as an opaque ordered key
   * (the script computes it with the Haversine formula).
   */
  datatype Suggestion = Suggestion(bin: Bin, distance: int)

  /**
   * The sort comparator is negative: a goes before b. With a known user
   * position it compares fill, then distance; otherwise fill alone.
   */
  predicate Before(a: Suggestion, b: Suggestion, located: bool)
  {
    a.bin.fill < b.bin.fill ||
    (located && a.bin.fill == b.bin.fill && a.distance < b.distance)
  }

  /** No suggestion is listed after one that should come after it. */
  predicate InSuggestionOrder(s: seq<Suggestion>, located: bool)
  {
    forall i, j :: 0 <= i < j < |s| ==> !Before(s[j], s[i], located)
  }

  /** An entry that no entry of an ordered list goes before may head that list. */
  lemma ConsInOrder(y: Suggestion, s: seq<Suggestion>, located: bool)
    requires InSuggestionOrder(s, located)
    requires s != [] ==> !Before(s[0], y, located)
    ensures InSuggestionOrder([y] + s, located)
  {
    var t := [y] + s;
    forall i, j | 0 <= i < j < |t|
      ensures !Before(t[j], t[i], located)
    {
      if i == 0 && j > 1 {
        assert !Before(s[j - 1], s[0], located);
      }
    }
  }

  /** The tail of an ordered list is ordered. */
  lemma TailInOrder(s: seq<Suggestion>, located: bool)
    requires s != [] && InSuggestionOrder(s, located)
    ensures InSuggestionOrder(s[1..], located)
  {
    var t := s[1..];
    forall i, j | 0 <= i < j < |t|
      ensures !Before(t[j], t[i], located)
    {
      assert t[j] == s[j + 1] && t[i] == s[i + 1];
    }
  }

  /** Puts x into the ordered list s, after every entry that x does not go before. */
  function Insert(x: Suggestion, s: seq<Suggestion>, located: bool): (r: seq<Suggestion>)
    requires InSuggestionOrder(s, located)
    ensures InSuggestionOrder(r, located)
    ensures multiset(r) == multiset(s) + multiset{x}
    ensures |r| == |s| + 1 && (r[0] == x || (s != [] && r[0] == s[0]))
  {
    if s == [] then [x]
    else if Before(x, s[0], located) then
      ConsInOrder(x, s, located);
      [x] + s
    else
      TailInOrder(s, located);
      var rest := Insert(x, s[1..], located);
      assert multiset(s) == multiset{s[0]} + multiset(s[1..]) by {
        assert s == [s[0]] + s[1..];
      }
      ConsInOrder(s[0], rest, located);
      [s[0]] + rest
  }

  /** `sortedBins.sort(...)`: the suggestions rearranged into suggestion order. */
  function SortSuggestions(s: seq<Suggestion>, located: bool): (r: seq<Suggestion>)
    ensures InSuggestionOrder(r, located)
    ensures multiset(r) == multiset(s)
  {
    if s == [] then []
    else
      var n := |s| - 1;
      assert s == s[..n] + [s[n]];
      Insert(s[n], SortSuggestions(s[..n], located), located)
  }

  /** The head of any suggestion order has the least fill of all bins. */
  lemma FirstSuggestionLeastFull(s: seq<Suggestion>, located: bool, j: int)
    requires InSuggestionOrder(s, located) && 0 <= j < |s|
    ensures s[0].bin.fill <= s[j].bin.fill
  {
    if j > 0 {
      assert !Before(s[j], s[0], located);
    }
  }

  /**
   * `WARNING: Some bins are full!` is shown exactly when some bin has a fill
   * that the status rule calls Full.
   */
  function ShowsOverflowWarning(s: seq<Suggestion>): (w: bool)
    ensures w <==> exists i :: 0 <= i < |s| && StatusFor(s[i].bin.fill) == Full
  {
    exists i :: 0 <= i < |s| && s[i].bin.fill >= FullAt
  }

  /**
   * Where the two orders part: of two equally full Recycling bins A and B,
   * with B nearer the user, the deposit picks A (it sorts by fill only) while
   * every suggestion order with a known position lists B first.
   */
  lemma DepositIgnoresDistance(a: Bin, b: Bin, da: int, db: int, r: seq<Suggestion>)
    requires a.category == Recycling && b.category == Recycling
    requires a.fill == b.fill < MaxFill && db < da
    requires multiset(r) == multiset([Suggestion(a, da), Suggestion(b, db)])
    requires InSuggestionOrder(r, true)
    ensures LeastFullBin([a, b], Recycling) == Some(0)
    ensures r[0] == Suggestion(b, db)
  {
    var sa, sb := Suggestion(a, da), Suggestion(b, db);
    assert |r| == 2;
    assert r == [r[0], r[1]];
    assert multiset{r[0], r[1]} == multiset{sa, sb};
  }
}
