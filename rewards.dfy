/** The voucher catalogue and the balance arithmetic of a redemption. */
module Rewards {
  import opened Wrappers

  datatype Reward = Reward(id: string, name: string, cost: int)

  /** The `rewards` catalogue (logos left out). */
  function Catalog(): (rs: seq<Reward>)
    ensures |rs| == 6
    ensures forall i :: 0 <= i < |rs| ==> rs[i].cost > 0 && rs[i].name != ""
    ensures forall i, j :: 0 <= i < j < |rs| ==> rs[i].id != rs[j].id
  {
    [ Reward("touchngo_rm5", "Touch 'n Go eWallet Voucher (RM5)", 100),
      Reward("shopee_rm10", "Shopee Voucher (RM10)", 200),
      Reward("foodpanda_rm8", "Foodpanda Voucher (RM8)", 150),
      Reward("shell_fuel_rm15", "Shell Fuel Voucher (RM15)", 300),
      Reward("tealive_voucher", "Tealive Voucher", 75),
      Reward("mcd_voucher", "McDonald's Voucher", 120) ]
  }

  /** `Array.prototype.find` on the catalogue: the first reward with this id. */
  function FindReward(rs: seq<Reward>, id: string): (r: Option<nat>)
    ensures r.None? <==> forall i :: 0 <= i < |rs| ==> rs[i].id != id
    ensures r.Some? ==> r.value < |rs| && rs[r.value].id == id &&
                        forall i :: 0 <= i < r.value ==> rs[i].id != id
  {
    if |rs| == 0 then None
    else if rs[0].id == id then Some(0)
    else
      var r := FindReward(rs[1..], id);
      if r.None? then None else Some(r.value + 1)
  }

  const UnknownReward: string := "Unknown Reward"

  /** The name shown for a redemption: the found reward's name, or "Unknown Reward". */
  function RewardName(rs: seq<Reward>, id: string): (name: string)
    ensures (forall i :: 0 <= i < |rs| ==> rs[i].id != id) ==> name == UnknownReward
    ensures name != UnknownReward ==>
              exists i :: 0 <= i < |rs| && rs[i].id == id && rs[i].name == name
    ensures forall i :: 0 <= i < |rs| && rs[i].id == id && (forall j :: 0 <= j < i ==> rs[j].id != id) ==>
              name == (if rs[i].name != "" then rs[i].name else UnknownReward)
  {
    var r := FindReward(rs, id);
    if r.Some? && rs[r.value].name != "" then rs[r.value].name else UnknownReward
  }

  /** Every catalogue button shows its own reward's name (the ids are distinct). */
  lemma CatalogNamesResolve(i: int)
    requires 0 <= i < |Catalog()|
    ensures RewardName(Catalog(), Catalog()[i].id) == Catalog()[i].name
  {
    var rs := Catalog();
    var r := FindReward(rs, rs[i].id);
    assert r.Some? && rs[r.value].id == rs[i].id;
  }

  /**
   * The balance check and subtraction of a redemption: None when the balance
   * is below the cost, otherwise `Math.max(0, points - cost)`.
   */
  function RedeemedBalance(points: int, cost: int): (r: Option<int>)
    ensures r.None? <==> points < cost
    ensures r.Some? ==> r.value == points - cost && r.value >= 0
  {
    if points < cost then None
    else if points - cost > 0 then Some(points - cost) else Some(0)
  }
}
