/**
 * Waste classification: the classifier tmClass -> waste type mapper, the
 * waste type -> bin category mapper, and the carbon impact of one throw.
 */
module Waste {

  /** The six fine-grained waste types a deposit can carry. */
  datatype WasteType = Paper | Plastic | Glass | Aluminium | FoodWaste | NonRecyclable

  /** The three kinds of physical bin. */
  datatype BinCategory = General | Recycling | Compost

  /** The display name of a waste type, as the manual-selection options carry it. */
  function WasteTypeName(w: WasteType): string
  {
    match w
    case Paper => "Paper"
    case Plastic => "Plastic"
    case Glass => "Glass"
    case Aluminium => "Aluminium"
    case FoodWaste => "Food Waste"
    case NonRecyclable => "Non-recyclable"
  }

  /** The display name of a bin category (the `type` field of a bin). */
  function CategoryName(c: BinCategory): string
  {
    match c
    case General => "General"
    case Recycling => "Recycling"
    case Compost => "Compost"
  }

  /** Lower-cases one character; only the ASCII letters A-Z have a case mapping here. */
  function LowerChar(c: char): (d: char)
    ensures 'A' <= c <= 'Z' ==> d as int == c as int + 32
    ensures !('A' <= c <= 'Z') ==> d == c
    ensures !('A' <= d <= 'Z')
  {
    if 'A' <= c <= 'Z' then (c as int + 32) as char else c
  }

  /** `String.prototype.toLowerCase`, restricted to ASCII letters. */
  function ToLower(s: string): (t: string)
    ensures |t| == |s|
    ensures forall i :: 0 <= i < |s| ==> t[i] == LowerChar(s[i])
  {
    seq(|s|, i requires 0 <= i < |s| => LowerChar(s[i]))
  }

  /** Lower-casing twice is lower-casing once. */
  lemma ToLowerIdempotent(s: string)
    ensures ToLower(ToLower(s)) == ToLower(s)
  {
    var t := ToLower(s);
    assert forall i :: 0 <= i < |t| ==> LowerChar(t[i]) == t[i];
  }

  /** The lower-case labels the classifier mapper recognises for each waste type. */
  function KnownLabels(w: WasteType): set<string>
  {
    match w
    case Plastic => {"plastic"}
    case Paper => {"paper"}
    case Glass => {"glass"}
    case Aluminium => {"metal", "aluminum", "aluminium"}
    case FoodWaste => {"organic", "food waste", "compost"}
    case NonRecyclable => {}
  }

  /** True when the lower-cased tmClass is one the mapper recognises. */
  predicate IsKnownLabel(lower: string)
  {
    exists w: WasteType :: lower in KnownLabels(w)
  }

  /**
   * `mapTmClassToDetectedWasteType`: lower-cases the tmClass, then checks it
   * against the known labels in the script's order; anything else is
   * Non-recyclable.
   */
  function MapTmClassToWasteType(tmClass: string): (w: WasteType)
    ensures w != NonRecyclable ==> ToLower(tmClass) in KnownLabels(w)
  {
    var l := ToLower(tmClass);
    if l == "plastic" then Plastic
    else if l == "paper" then Paper
    else if l == "glass" then Glass
    else if l == "metal" || l == "aluminum" || l == "aluminium" then Aluminium
    else if l == "organic" || l == "food waste" || l == "compost" then FoodWaste
    else NonRecyclable
  }

  /**
   * The mapper agrees with the reference table KnownLabels: a tmClass maps to
   * w exactly when its lower-case form is one of w's labels, and to
   * Non-recyclable exactly when its lower-case form is unknown.
   */
  lemma MapTmClassMatchesTable(tmClass: string, w: WasteType)
    ensures w != NonRecyclable ==>
              (MapTmClassToWasteType(tmClass) == w <==> ToLower(tmClass) in KnownLabels(w))
    ensures MapTmClassToWasteType(tmClass) == NonRecyclable <==> !IsKnownLabel(ToLower(tmClass))
  {
    var l := ToLower(tmClass);
    if IsKnownLabel(l) {
      var v: WasteType :| l in KnownLabels(v);
      assert MapTmClassToWasteType(tmClass) == v;
    } else {
      assert l !in KnownLabels(Plastic) && l !in KnownLabels(Paper) && l !in KnownLabels(Glass);
      assert l !in KnownLabels(Aluminium) && l !in KnownLabels(FoodWaste);
    }
  }

  /** The mapper ignores letter case. */
  lemma MapTmClassIgnoresCase(a: string, b: string)
    requires ToLower(a) == ToLower(b)
    ensures MapTmClassToWasteType(a) == MapTmClassToWasteType(b)
  {
  }

  /** Lower-casing the tmClass first changes nothing. */
  lemma MapTmClassOfLowered(tmClass: string)
    ensures MapTmClassToWasteType(ToLower(tmClass)) == MapTmClassToWasteType(tmClass)
  {
    ToLowerIdempotent(tmClass);
  }

  /** A waste type's own display name, fed back to the mapper, gives that type. */
  lemma MapTmClassOfName(w: WasteType)
    ensures MapTmClassToWasteType(WasteTypeName(w)) == w
  {
    match w
    case Paper =>
      assert ToLower("Paper") == "paper";
    case Plastic =>
      assert ToLower("Plastic") == "plastic";
    case Glass =>
      assert ToLower("Glass") == "glass";
    case Aluminium =>
      assert ToLower("Aluminium") == "aluminium";
    case FoodWaste =>
      assert ToLower("Food Waste") == "food waste";
    case NonRecyclable =>
      var l := ToLower("Non-recyclable");
      assert l[0] == 'n' && l[3] == '-';
      assert !IsKnownLabel(l);
  }

  /**
   * `mapDetectedWasteTypeToBinCategory`, over the waste type's name as the
   * script passes it: any name other than the five listed falls to General.
   */
  function MapWasteTypeNameToCategory(name: string): (c: BinCategory)
    ensures c != General ==> exists w: WasteType :: name == WasteTypeName(w) && w != NonRecyclable
  {
    if name == "Paper" || name == "Plastic" || name == "Glass" || name == "Aluminium" then
      assert name == WasteTypeName(Paper) || name == WasteTypeName(Plastic) ||
             name == WasteTypeName(Glass) || name == WasteTypeName(Aluminium);
      Recycling
    else if name == "Food Waste" then
      assert name == WasteTypeName(FoodWaste);
      Compost
    else General
  }

  /** The bin category a waste type goes into. */
  function CategoryOf(w: WasteType): (c: BinCategory)
    ensures c == Recycling <==> w in {Paper, Plastic, Glass, Aluminium}
    ensures c == Compost <==> w == FoodWaste
    ensures c == General <==> w == NonRecyclable
  {
    MapWasteTypeNameToCategory(WasteTypeName(w))
  }

  /** Names that are not one of the six waste type names all go to General. */
  lemma UnknownNameIsGeneral(name: string)
    requires forall w: WasteType :: name != WasteTypeName(w)
    ensures MapWasteTypeNameToCategory(name) == General
  {
    assert name != WasteTypeName(Paper) && name != WasteTypeName(Plastic);
    assert name != WasteTypeName(Glass) && name != WasteTypeName(Aluminium);
    assert name != WasteTypeName(FoodWaste);
  }

  /**
   * `CARBON_IMPACT_PER_THROW`, in tenths of a kilogram of CO2e: positive is
   * saved, negative is produced.
   */
  function CarbonImpact(w: WasteType): (tenths: int)
    ensures tenths < 0 <==> CategoryOf(w) == General
  {
    match w
    case Paper => 9
    case Plastic => 11
    case Glass => 8
    case Aluminium => 12
    case FoodWaste => 7
    case NonRecyclable => -5
  }
}
