/**
 * Smart bins: the status thresholds, the colours shown for a bin, the seed
 * data, the choice of bin for a deposit and the effect of a deposit on it.
 */
module Bins {
  import opened Wrappers
  import opened Waste

  /** An ISO-8601 time stamp; its contents are never inspected. */
  type Timestamp = string

  datatype Status = Normal | ServiceRequired | Full

  /**
   * A bin as held in `companyBins`. The map coordinates are not part of this
   * model; the suggestion list takes a distance key per bin instead.
   */
  datatype Bin = Bin(
    id: string,
    location: string,
    category: BinCategory,
    fill: int,
    status: Status,
    lastUpdated: Timestamp)

  const FullAt: int := 80
  const ServiceAbove: int := 50
  const MaxFill: int := 100

  /** The status a deposit gives a bin: Full from 80, Service Required above 50. */
  function StatusFor(fill: int): (s: Status)
    ensures s == Full <==> fill >= FullAt
    ensures s == ServiceRequired <==> ServiceAbove < fill < FullAt
    ensures s == Normal <==> fill <= ServiceAbove
  {
    if fill >= FullAt then Full
    else if fill > ServiceAbove then ServiceRequired
    else Normal
  }

  /** Severity rank of a status, for comparing statuses. */
  function Severity(s: Status): nat
  {
    match s
    case Normal => 0
    case ServiceRequired => 1
    case Full => 2
  }

  /** A fuller bin never has a less severe status. */
  lemma StatusForMonotone(f: int, g: int)
    requires f <= g
    ensures Severity(StatusFor(f)) <= Severity(StatusFor(g))
  {
  }

  datatype Colour = Green | Yellow | Red | Grey

  /**
   * `getStatusColorClass` and `getStatusColorForMap`: both give the same
   * colour per status (as a CSS class and as a hex code respectively).
   */
  function StatusColour(s: Status): (c: Colour)
    ensures c == Green <==> s == Normal
    ensures c == Yellow <==> s == ServiceRequired
    ensures c == Red <==> s == Full
    ensures c != Grey
  {
    match s
    case Normal => Green
    case ServiceRequired => Yellow
    case Full => Red
  }

  /** The colour of a bin's fill progress bar: red above 75, yellow above 50. */
  function FillBarColour(fill: int): (c: Colour)
    ensures c == Red <==> fill > 75
    ensures c == Yellow <==> 50 < fill <= 75
    ensures c == Green <==> fill <= 50
  {
    if fill > 75 then Red
    else if fill > 50 then Yellow
    else Green
  }

  /**
   * The progress bar and the status dot of a freshly updated bin disagree
   * exactly for fills 76 to 79: the bar is red while the status is Service
   * Required.
   */
  lemma BarAndStatusColoursDisagree(fill: int)
    ensures FillBarColour(fill) != StatusColour(StatusFor(fill)) <==> 75 < fill < FullAt
    ensures 75 < fill < FullAt ==>
              FillBarColour(fill) == Red && StatusColour(StatusFor(fill)) == Yellow
  {
  }

  /** A bin that can take a deposit of category c: same type and not at 100%. */
  predicate IsCandidate(b: Bin, c: BinCategory)
  {
    b.category == c && b.fill < MaxFill
  }

  /**
   * Reference definition of the bin a deposit picks: a candidate whose fill
   * is minimal among the candidates, and the first such in array order
   * (`Array.prototype.sort` is stable, so ties keep their order).
   */
  ghost predicate IsFirstLeastFull(bins: seq<Bin>, c: BinCategory, i: int)
  {
    0 <= i < |bins| && IsCandidate(bins[i], c) &&
    (forall j :: 0 <= j < |bins| && IsCandidate(bins[j], c) ==> bins[i].fill <= bins[j].fill) &&
    (forall j :: 0 <= j < i && IsCandidate(bins[j], c) ==> bins[i].fill < bins[j].fill)
  }

  /**
   * The deposit's choice: filter the bins to candidates, sort them by fill
   * and take the first. None when there is no candidate.
   */
  function LeastFullBin(bins: seq<Bin>, c: BinCategory): (r: Option<nat>)
    ensures r.None? <==> forall j :: 0 <= j < |bins| ==> !IsCandidate(bins[j], c)
    ensures r.Some? ==> IsFirstLeastFull(bins, c, r.value)
  {
    if |bins| == 0 then None
    else
      var n := |bins| - 1;
      var r := LeastFullBin(bins[..n], c);
      if !IsCandidate(bins[n], c) then r
      else if r.None? then Some(n)
      else if bins[n].fill < bins[r.value].fill then Some(n)
      else r
  }

  /** The reference definition picks at most one bin, so it determines the choice. */
  lemma FirstLeastFullUnique(bins: seq<Bin>, c: BinCategory, i: int, j: int)
    requires IsFirstLeastFull(bins, c, i) && IsFirstLeastFull(bins, c, j)
    ensures i == j
  {
  }

  /** LeastFullBin returns exactly the bin the reference definition names. */
  lemma LeastFullBinIsReference(bins: seq<Bin>, c: BinCategory, i: int)
    ensures LeastFullBin(bins, c) == Some(i) <==> IsFirstLeastFull(bins, c, i)
  {
    var r := LeastFullBin(bins, c);
    if IsFirstLeastFull(bins, c, i) {
      assert r.Some?;
      FirstLeastFullUnique(bins, c, i, r.value);
    }
  }

  /**
   * A bin after one deposit of k percent (the random 1..5 of the script):
   * the fill rises by k, clamped to 100, the status is recomputed from the
   * new fill and the time stamp is renewed.
   */
  function Deposited(b: Bin, k: int, now: Timestamp): (b': Bin)
    requires 1 <= k <= 5
    ensures b.fill < MaxFill ==> b.fill < b'.fill <= MaxFill
    ensures b'.fill <= b.fill + k && (b'.fill == b.fill + k || b'.fill == MaxFill)
    ensures b'.status == StatusFor(b'.fill) && b'.lastUpdated == now
    ensures b'.id == b.id && b'.location == b.location && b'.category == b.category
  {
    var f := if b.fill + k < MaxFill then b.fill + k else MaxFill;
    b.(fill := f, status := StatusFor(f), lastUpdated := now)
  }

  /** A deposit keeps a fill that was within 0..100 within 0..100. */
  lemma DepositedStaysInRange(b: Bin, k: int, now: Timestamp)
    requires 1 <= k <= 5 && 0 <= b.fill <= MaxFill
    ensures 0 <= Deposited(b, k, now).fill <= MaxFill
  {
  }

  /** The nine demonstration bins around Universiti Malaya, stamped with the load time. */
  function SeedBins(now: Timestamp): (bins: seq<Bin>)
    ensures |bins| == 9
    ensures forall i :: 0 <= i < |bins| ==> 0 <= bins[i].fill <= MaxFill
  {
    [ Bin("bin-UM-001", "UM Main Campus (Admin Building)", General, 30, Normal, now),
      Bin("bin-UM-002", "UM Medical Centre Entrance", Recycling, 85, Full, now),
      Bin("bin-UM-003", "Faculty of Dentistry", Compost, 60, ServiceRequired, now),
      Bin("bin-UM-004", "UM Central Library", General, 70, Normal, now),
      Bin("bin-UM-005", "Faculty of Computer Science & IT", Recycling, 20, Normal, now),
      Bin("bin-UM-006", "Perdanasiswa Complex", General, 95, Full, now),
      Bin("bin-UM-007", "UM Sports Centre", Compost, 45, Normal, now),
      Bin("bin-UM-008", "Faculty of Engineering", Recycling, 55, Normal, now),
      Bin("bin-UM-009", "Faculty of Law", General, 75, ServiceRequired, now) ]
  }

  /**
   * The seed data does not follow the status rule: exactly bin-UM-004 (70%)
   * and bin-UM-008 (55%) are marked Normal although a deposit would mark
   * them Service Required. Status matches fill only for bins a deposit has
   * updated.
   */
  lemma SeedStatusMismatches(now: Timestamp, i: int)
    requires 0 <= i < 9
    ensures SeedBins(now)[i].status == StatusFor(SeedBins(now)[i].fill) <==> i != 3 && i != 7
  {
  }
}
