/**
 * The application session: the shared bins, the signed-in user's figures,
 * the account registry and the handlers that change them (deposit,
 * redemption, register/login/logout, save and load).
 */
module App {
  import opened Wrappers
  import opened Waste
  import opened Bins
  import opened History
  import opened Accounts
  import opened Rewards

  /** `POINTS_FOR_THROW_WASTE`. */
  const PointsForThrow: int := 1

  datatype ThrowOutcome =
    | ThrowLoginRequired             // "Please log in to throw waste."
    | NoBins                         // "There are no bins currently registered ..."
    | Cancelled                      // no confident prediction and no manual choice
    | NoSuitableBin(category: BinCategory)
    | Thrown(binIndex: nat, waste: WasteType)

  datatype RedeemOutcome =
    | RedeemLoginRequired            // "Please log in to redeem rewards."
    | Declined                       // the confirmation was cancelled
    | NotEnoughPoints                // "Not enough points to redeem this reward."
    | Redeemed(rewardName: string)

  datatype AuthOutcome = AuthFailed(error: AuthError) | Registered | LoggedIn

  /** What every stored record satisfies: keyed by its own name, points not negative, log capped. */
  predicate AccountOk(u: string, a: Account)
  {
    a.username == u && a.points >= 0 && |a.history| <= MaxHistory
  }

  /**
   * The waste type of a deposit: the mapped classifier label when there is a
   * confident prediction (a non-empty label), otherwise the manual choice
   * (None when the user cancelled it).
   */
  function DetectedWaste(prediction: Option<string>, manual: Option<WasteType>): Option<WasteType>
  {
    if prediction.Some? && prediction.value != "" then Some(MapTmClassToWasteType(prediction.value))
    else manual
  }

  /** The log line of a deposit of waste w into bin b. */
  function ThrowEntry(now: Timestamp, w: WasteType, b: Bin): HistoryEntry
  {
    HistoryEntry(now, "Threw " + WasteTypeName(w) + " waste", b.location, CategoryName(b.category),
                 PointsForThrow, CarbonImpact(w))
  }

  /** The log line of a redemption: the reward's name as location, the cost as lost points. */
  function RedeemEntry(now: Timestamp, name: string, cost: int): HistoryEntry
  {
    HistoryEntry(now, "Redeemed reward", name, "Reward", -cost, 0)
  }

  class Session {
    /** `companyBins`: a fixed population, shared by all users, updated in place. */
    const bins: array<Bin>
    /** `currentUsername`, `userPoints`, `totalCarbonSaved` (tenths of a kg) and `historyLog`. */
    var currentUser: Option<string>
    var points: int
    var carbonSaved: int
    var history: seq<HistoryEntry>
    /** The registry behind `registered_users`, and `lastLoggedInUser`. */
    var store: Store
    var lastUser: Option<string>

    ghost predicate Valid()
      reads this, bins
    {
      (forall i :: 0 <= i < bins.Length ==> 0 <= bins[i].fill <= MaxFill) &&
      points >= 0 && |history| <= MaxHistory &&
      (forall u :: u in store ==> AccountOk(u, store[u])) &&
      (currentUser.Some? ==> currentUser.value in store)
    }

    /** Page load: the seed bins, the registry as stored, nobody signed in. */
    constructor (now: Timestamp, stored: Store, remembered: Option<string>)
      requires forall u :: u in stored ==> AccountOk(u, stored[u])
      ensures Valid() && fresh(bins) && bins[..] == SeedBins(now)
      ensures currentUser == None && points == 0 && carbonSaved == 0 && history == []
      ensures store == stored && lastUser == remembered
    {
      var seed := new Bin[9](i requires 0 <= i < 9 => SeedBins(now)[i]);
      assert seed[..] == SeedBins(now);
      bins := seed;
      currentUser, points, carbonSaved, history := None, 0, 0, [];
      store, lastUser := stored, remembered;
    }

    /** `addHistoryEntry`: prepend to the log, popping the oldest entry past 50. */
    method AddHistoryEntry(e: HistoryEntry)
      requires Valid()
      modifies this`history
      ensures Valid()
      ensures history == Prepend(old(history), e)
    {
      history := [e] + history;
      if |history| > MaxHistory {
        history := history[..|history| - 1];
      }
    }

    /** `saveUserDataToLocalStorage`: write the session into the signed-in user's record. */
    method SaveUserData()
      requires Valid()
      modifies this`store
      ensures Valid()
      ensures currentUser.None? ==> store == old(store)
      ensures currentUser.Some? ==>
                store == old(store)[currentUser.value :=
                  SavedAccount(old(store), currentUser.value, points, carbonSaved, history)]
    {
      if currentUser.Some? {
        var u := currentUser.value;
        store := store[u := SavedAccount(store, u, points, carbonSaved, history)];
      }
    }

    /** `loadUserDataFromLocalStorage`: false, changing nothing, when the user has no record. */
    method LoadUserData(u: string) returns (ok: bool)
      requires Valid()
      modifies this`currentUser, this`points, this`carbonSaved, this`history
      ensures Valid()
      ensures ok <==> u in store
      ensures ok ==> currentUser == Some(store[u].username) && points == store[u].points &&
                     carbonSaved == store[u].carbonSaved && history == store[u].history
      ensures !ok ==> currentUser == old(currentUser) && points == old(points) &&
                      carbonSaved == old(carbonSaved) && history == old(history)
    {
      ok := u in store;
      if ok {
        var a := store[u];
        currentUser, points, carbonSaved, history := Some(a.username), a.points, a.carbonSaved, a.history;
      }
    }

    /**
     * The register branch of the form, once its checks pass: a fresh record,
     * the user signed in with zero figures and remembered, then saved.
     */
    method RegisterUser(u: string, password: string)
      requires Valid() && u !in store
      modifies this
      ensures Valid()
      ensures store == old(store)[u := NewAccount(u, password)]
      ensures currentUser == Some(u) && points == 0 && carbonSaved == 0 && history == []
      ensures lastUser == Some(u)
    {
      store := store[u := NewAccount(u, password)];
      currentUser, points, carbonSaved, history := Some(u), 0, 0, [];
      lastUser := Some(u);
      SaveUserData();
    }

    /**
     * The login branch of the form, once its checks pass: the stored record
     * is loaded and remembered; the save that follows writes it back as it was.
     */
    method LoginUser(u: string)
      requires Valid() && u in store
      modifies this
      ensures Valid()
      ensures store == old(store) && currentUser == Some(u) && lastUser == Some(u)
      ensures points == store[u].points && carbonSaved == store[u].carbonSaved
      ensures history == store[u].history
    {
      currentUser := Some(u);
      var ok := LoadUserData(u);
      lastUser := Some(u);
      SaveUserData();
      assert store[u] == old(store)[u];
    }

    /**
     * The submit handler of the login/register form: the checks on the
     * trimmed name, then the register or login branch. A failing check
     * reports its error and changes nothing.
     */
    method SubmitAuth(mode: AuthMode, rawUsername: string, password: string, confirm: string)
      returns (outcome: AuthOutcome)
      requires Valid()
      modifies this
      ensures Valid()
      ensures var u := Trim(rawUsername);
              var err := CheckAuth(old(store), mode, u, password, confirm);
              (err.Some? ==> outcome == AuthFailed(err.value) && unchanged(this)) &&
              (err.None? && mode == RegisterMode ==>
                 outcome == Registered && store == old(store)[u := NewAccount(u, password)] &&
                 currentUser == Some(u) && points == 0 && carbonSaved == 0 && history == [] &&
                 lastUser == Some(u)) &&
              (err.None? && mode == LoginMode ==>
                 outcome == LoggedIn && store == old(store) && currentUser == Some(u) &&
                 points == old(store)[u].points && carbonSaved == old(store)[u].carbonSaved &&
                 history == old(store)[u].history && lastUser == Some(u))
    {
      var username := Trim(rawUsername);
      var err := CheckAuth(store, mode, username, password, confirm);
      if err.Some? {
        return AuthFailed(err.value);
      }
      if mode == RegisterMode {
        RegisterUser(username, password);
        outcome := Registered;
      } else {
        LoginUser(username);
        outcome := LoggedIn;
      }
    }

    /** The logout handler: clear the session and forget the remembered user. */
    method Logout()
      requires Valid()
      modifies this
      ensures Valid()
      ensures currentUser == None && points == 0 && carbonSaved == 0 && history == []
      ensures lastUser == None && store == old(store)
    {
      currentUser, points, carbonSaved, history := None, 0, 0, [];
      lastUser := None;
    }

    /**
     * The automatic sign-in at page load: when a remembered user still has
     * a record, load it and save it back; otherwise stay signed out.
     */
    method ResumeSession() returns (resumed: bool)
      requires Valid()
      modifies this
      ensures Valid()
      ensures resumed <==> old(lastUser).Some? && old(lastUser).value != "" &&
                           old(lastUser).value in old(store)
      ensures lastUser == old(lastUser) && store == old(store)
      ensures resumed ==> currentUser == old(lastUser) &&
                          points == old(store)[old(lastUser).value].points &&
                          carbonSaved == old(store)[old(lastUser).value].carbonSaved &&
                          history == old(store)[old(lastUser).value].history
      ensures !resumed ==> unchanged(this)
    {
      resumed := false;
      if lastUser.Some? && lastUser.value != "" {
        var u := lastUser.value;
        resumed := LoadUserData(u);
        if resumed {
          currentUser := Some(u);
          SaveUserData();
          assert store[u] == old(store)[u];
        }
      }
    }

    /**
     * The throw-waste handler. k is the random fill increase (1 to 5) and
     * now the time stamp. A deposit goes into the first least-full bin of
     * the waste's category that is not at 100%; the user gains one point,
     * the waste's carbon impact and one log line, and the record is saved.
     * Every failure changes nothing.
     */
    method ThrowWaste(prediction: Option<string>, manual: Option<WasteType>, k: int, now: Timestamp)
      returns (outcome: ThrowOutcome)
      requires Valid() && 1 <= k <= 5
      modifies this, bins
      ensures Valid()
      ensures outcome == ThrowLoginRequired <==> old(currentUser).None?
      ensures old(currentUser).Some? ==> (outcome == NoBins <==> bins.Length == 0)
      ensures old(currentUser).Some? && bins.Length > 0 ==>
                (outcome == Cancelled <==> DetectedWaste(prediction, manual).None?)
      ensures outcome.NoSuitableBin? ==>
                DetectedWaste(prediction, manual).Some? &&
                outcome.category == CategoryOf(DetectedWaste(prediction, manual).value) &&
                forall j :: 0 <= j < bins.Length ==> !IsCandidate(old(bins[j]), outcome.category)
      ensures old(currentUser).Some? && DetectedWaste(prediction, manual).Some? &&
              (exists j :: 0 <= j < bins.Length &&
                 IsCandidate(old(bins[j]), CategoryOf(DetectedWaste(prediction, manual).value))) ==>
                outcome.Thrown?
      ensures !outcome.Thrown? ==> unchanged(this) && unchanged(bins)
      ensures outcome.Thrown? ==>
                var i := outcome.binIndex;
                var w := outcome.waste;
                var u := old(currentUser).value;
                old(currentUser).Some? && DetectedWaste(prediction, manual) == Some(w) &&
                IsFirstLeastFull(old(bins[..]), CategoryOf(w), i) &&
                bins[..] == old(bins[..])[i := Deposited(old(bins[i]), k, now)] &&
                points == old(points) + PointsForThrow &&
                carbonSaved == old(carbonSaved) + CarbonImpact(w) &&
                history == Prepend(old(history), ThrowEntry(now, w, bins[i])) &&
                history[0].binLocation == bins[i].location &&
                history[0].binType == CategoryName(bins[i].category) &&
                history[0].points == PointsForThrow && history[0].carbonImpact == CarbonImpact(w) &&
                currentUser == old(currentUser) && lastUser == old(lastUser) &&
                store == old(store)[u := SavedAccount(old(store), u, points, carbonSaved, history)]
    {
      if currentUser.None? {
        return ThrowLoginRequired;
      }
      if bins.Length == 0 {
        return NoBins;
      }
      var detected := DetectedWaste(prediction, manual);
      if detected.None? {
        return Cancelled;
      }
      var w := detected.value;
      var category := MapWasteTypeNameToCategory(WasteTypeName(w));
      var choice := LeastFullBin(bins[..], category);
      if choice.None? {
        return NoSuitableBin(category);
      }
      var i := choice.value;
      Deposit(i, w, k, now);
      outcome := Thrown(i, w);
    }

    /**
     * The second half of the throw-waste handler, once bin i is chosen: the
     * bin takes the deposit, the user gains one point, the waste's carbon
     * impact and a log line naming the bin, and the record is saved.
     */
    method Deposit(i: nat, w: WasteType, k: int, now: Timestamp)
      requires Valid() && currentUser.Some? && i < bins.Length && 1 <= k <= 5
      modifies this, bins
      ensures Valid()
      ensures bins[..] == old(bins[..])[i := Deposited(old(bins[i]), k, now)]
      ensures points == old(points) + PointsForThrow
      ensures carbonSaved == old(carbonSaved) + CarbonImpact(w)
      ensures history == Prepend(old(history), ThrowEntry(now, w, bins[i]))
      ensures currentUser == old(currentUser) && lastUser == old(lastUser)
      ensures store == old(store)[currentUser.value :=
                SavedAccount(old(store), currentUser.value, points, carbonSaved, history)]
    {
      var b := Deposited(bins[i], k, now);
      DepositedStaysInRange(bins[i], k, now);
      bins[i] := b;
      assert bins[..] == old(bins[..])[i := b];
      points := points + PointsForThrow;
      carbonSaved := carbonSaved + CarbonImpact(w);
      AddHistoryEntry(ThrowEntry(now, w, b));
      SaveUserData();
    }

    /**
     * `handleRedeemClick` for the reward button carrying rewardId and cost.
     * Nothing changes unless the user is signed in, confirms, and has at
     * least cost points; then the balance drops by exactly cost, a log line
     * is prepended and the record is saved.
     */
    method Redeem(rewardId: string, cost: int, confirmed: bool, now: Timestamp)
      returns (outcome: RedeemOutcome)
      requires Valid()
      modifies this
      ensures Valid()
      ensures outcome == RedeemLoginRequired <==> old(currentUser).None?
      ensures outcome == Declined <==> old(currentUser).Some? && !confirmed
      ensures old(currentUser).Some? && confirmed && old(points) >= cost ==> outcome.Redeemed?
      ensures old(currentUser).Some? && confirmed ==>
                (outcome == NotEnoughPoints <==> old(points) < cost)
      ensures !outcome.Redeemed? ==> unchanged(this)
      ensures outcome.Redeemed? ==>
                var u := old(currentUser).value;
                var name := RewardName(Catalog(), rewardId);
                old(currentUser).Some? && confirmed && outcome.rewardName == name &&
                points == old(points) - cost && points >= 0 &&
                history == Prepend(old(history), RedeemEntry(now, name, cost)) &&
                history[0].binLocation == name && history[0].binType == "Reward" &&
                history[0].points == -cost && history[0].carbonImpact == 0 &&
                carbonSaved == old(carbonSaved) && currentUser == old(currentUser) &&
                lastUser == old(lastUser) &&
                store == old(store)[u := SavedAccount(old(store), u, points, carbonSaved, history)]
    {
      if currentUser.None? {
        return RedeemLoginRequired;
      }
      var name := RewardName(Catalog(), rewardId);
      if !confirmed {
        return Declined;
      }
      var balance := RedeemedBalance(points, cost);
      if balance.None? {
        return NotEnoughPoints;
      }
      points := balance.value;
      AddHistoryEntry(RedeemEntry(now, name, cost));
      SaveUserData();
      outcome := Redeemed(name);
    }
  }
}
