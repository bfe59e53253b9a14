# Smart waste deposit and rewards — Dafny model

A model of the domain logic of a browser demo in which users sign in, have
a piece of waste classified (by an image classifier or by choosing its type),
deposit it into one of a fixed set of simulated smart bins around Universiti
Malaya, earn points and a carbon-savings figure, and redeem points for
vouchers. Everything lives in one script, `script.js`. This model keeps the
parts of it that decide something:

- `Waste` (`waste.dfy`): the classifier-label → waste-type mapper, the waste-type → bin-category mapper
  and the carbon impact per throw.
- `Bins` (`bins.dfy`): the status thresholds, the status and progress-bar colours, the nine seed bins,
  the choice of bin for a deposit and the effect of a deposit on that bin.
- `History` (`history.dfy`): the activity log, newest first, capped at 50 entries.
- `Accounts` (`accounts.dfy`): account records, `trim`, the checks of the login/register form and the
  record a save writes.
- `Rewards` (`rewards.dfy`): the voucher catalogue, the reward-name lookup and the balance arithmetic of a
  redemption.
- `Suggestions` (`suggestions.dfy`): the ordering of the "nearby bins" suggestion list.
- `App` (`app.dfy`): a `Session` class holding what the script keeps in globals: the `companyBins`
  array (updated in place), the signed-in user's points, carbon and log, the account registry and the
  remembered user. Its methods are the handlers: throw waste, redeem, submit the auth form, log out,
  resume at page load, save and load.

Browser storage is the in-memory map `store` (user name → account). The
random fill increase is a parameter `k` with 1 ≤ k ≤ 5. Time stamps are
opaque strings passed in as `now`. Modal confirmations and choices are
parameters (`confirmed`, `manual`). The confident classifier label is the
parameter `prediction`. Carbon figures are integers in tenths of a
kilogram. The script's values are all multiples of 0.1 kg.

Where the code behaves in ways a reader may not expect, the model follows the code:

- A fill of exactly 50 gives status Normal, not Service Required. The rule is Full at fill ≥ 80,
  Service Required at fill > 50, and Normal otherwise (`script.js:779-783`).
- A deposit picks the least-full candidate bin by fill alone. The distance tie-break exists only
  in the suggestion list (`script.js:771` against `script.js:1061-1069`). `Suggestions.DepositIgnoresDistance`
  shows two bins where the two orders differ.
- The suggestion list ranks every bin, whatever its type and however full. It does not filter by
  category or fullness (`script.js:1060`).
- Status is not a function of fill for the seed data. bin-UM-004 (70%) and bin-UM-008 (55%) are
  marked Normal (`Bins.SeedStatusMismatches`). Only a bin that a deposit has updated has status
  `StatusFor(fill)`.
- The history cap pops one entry per call. It therefore keeps a log of at most 50 at most 50,
  but does not shorten a longer log.

## Model

| member | source | states |
|---|---|---|
| `Waste.ToLower` | script.js:55 | lower-casing keeps the length and maps each character on its own (A–Z to a–z, others unchanged) |
| `Waste.ToLowerIdempotent` | script.js:55 | lower-casing an already lower-cased label changes nothing |
| `Waste.MapTmClassMatchesTable` | script.js:54-69 | a label maps to Plastic, Paper, Glass, Aluminium or Food Waste exactly when its lower-case form is one of that type's labels (metal/aluminum/aluminium; organic/food waste/compost); it maps to Non-recyclable exactly when its lower-case form is unknown |
| `Waste.MapTmClassIgnoresCase` | script.js:55 | two labels with the same lower-case form map to the same waste type |
| `Waste.MapTmClassOfLowered` | script.js:55 | mapping the lower-cased label gives the same type as mapping the label |
| `Waste.MapTmClassToWasteType` | script.js:54-69 | a label maps to a type other than Non-recyclable only when its lower-case form is one of that type's recognised labels |
| `Waste.MapTmClassOfName` | script.js:54-69 | each waste type's display name (the manual-choice value) maps back to that type |
| `Waste.MapWasteTypeNameToCategory` | script.js:72-86 | a name goes to Recycling or Compost only when it is the name of one of the five recyclable or compostable waste types; everything else goes to General |
| `Waste.CategoryOf` | script.js:72-86 | Paper, Plastic, Glass and Aluminium go to Recycling, Food Waste to Compost, Non-recyclable to General, and no type goes to two categories |
| `Waste.UnknownNameIsGeneral` | script.js:83-84 | any name other than the six waste-type names falls through to General |
| `Waste.CarbonImpact` | script.js:44-51 | a throw produces carbon (negative impact) exactly when the waste goes to a General bin |
| `Bins.StatusFor` | script.js:778-784 | Full exactly when fill ≥ 80, Service Required exactly when 50 < fill < 80, Normal exactly when fill ≤ 50 |
| `Bins.StatusForMonotone` | script.js:778-784 | a fuller bin never gets a less severe status |
| `Bins.StatusColour` | script.js:619-626 | green exactly for Normal, yellow exactly for Service Required, red exactly for Full, so the three statuses get three different colours and never the fallback grey (same mapping at 1103-1110) |
| `Bins.FillBarColour` | script.js:585-590 | the progress bar is red above 75, yellow from 51 to 75, green up to 50 |
| `Bins.BarAndStatusColoursDisagree` | script.js:585-590 | for an updated bin, the bar colour and status dot differ exactly at fills 76–79, where the bar is red and the dot yellow |
| `Bins.LeastFullBin` | script.js:764-772 | None exactly when no bin of the category is below 100%; otherwise a bin of that category below 100% whose fill is minimal among those, and the first such in array order |
| `Bins.FirstLeastFullUnique` | script.js:771-772 | at most one bin is the first least-full candidate |
| `Bins.LeastFullBinIsReference` | script.js:764-772 | LeastFullBin returns index i exactly when i is the first least-full candidate |
| `Bins.Deposited` | script.js:774-784 | a deposit raises a fill below 100 strictly, by k or up to the 100 cap; the new status is StatusFor of the new fill; id, location and type are kept; the time stamp is renewed |
| `Bins.DepositedStaysInRange` | script.js:775 | a fill within 0..100 stays within 0..100 after a deposit |
| `Bins.SeedBins` | script.js:31-41 | nine seed bins, every fill within 0..100 |
| `Bins.SeedStatusMismatches` | script.js:31-41 | a seed bin's status matches StatusFor of its fill for every bin except bin-UM-004 and bin-UM-008 |
| `History.Prepend` | script.js:643-656 | the new entry is at index 0, followed by the older entries in order; the length grows by one unless that would pass 50, when the last entry is dropped |
| `History.PrependKeepsBound` | script.js:653-655 | a log of at most 50 entries stays at most 50 |
| `History.PrependOverfullKeepsLength` | script.js:653-655 | a log already over 50 keeps its length, because only one entry is popped |
| `History.PrependIsNewest` | script.js:643-656 | on a log within the cap, adding an entry keeps the 50 newest entries |
| `History.NewestOfAppend` | script.js:653-655 | cutting to 50 before putting newer entries in front does not change the 50 newest |
| `History.AddAllKeepsNewest` | script.js:643-656 | any sequence of adds to a log within the cap leaves exactly the 50 most recent entries, newest first, and never more than 50 |
| `Accounts.LeadingSpace` | script.js:221 | counts exactly the run of white space at the start of a string |
| `Accounts.TrailingSpace` | script.js:221 | counts exactly the run of white space at the end of a string |
| `Accounts.Trim` | script.js:221 | the result is a contiguous part of the input; everything cut off is white space; the result neither starts nor ends with white space |
| `Accounts.TrimEmptyIffBlank` | script.js:221-226 | a user name trims to empty, and so fails the "fill in all fields" check, exactly when it is all white space |
| `Accounts.TrimIdempotent` | script.js:221 | trimming twice is trimming once |
| `Accounts.CheckAuth` | script.js:225-267 | registration passes exactly when the name is non-empty, the passwords match, the password has at least 6 characters and `users[username]` is not truthy (the name has no record and is not a member every JavaScript object inherits, such as `constructor`); login passes exactly when name and password are non-empty and the name's record has that password; each error is reported exactly when its check is the first to fail, in the script's order: "fill in all fields" for an empty name or password, then on registration "passwords do not match", "at least 6 characters" and "already exists", and on login "invalid username or password" |
| `Accounts.SavedAccount` | script.js:157-172 | the saved record carries the session's points, carbon and log under the user's name, and keeps the stored password ("" when the user has none) |
| `Accounts.RegisterKeepsOthers` | script.js:247-257 | a registration that passes leaves every other account as it was |
| `Accounts.LoginAfterRegister` | script.js:247-270 | after a registration, login with the same name and password passes |
| `Accounts.LoginAfterSave` | script.js:157-172 | saving the session never changes whether its user can log in |
| `Rewards.Catalog` | script.js:125-132 | six rewards with pairwise distinct ids, each with a positive cost and a non-empty name |
| `Rewards.FindReward` | script.js:854 | None exactly when no reward has the id; otherwise the first reward with that id |
| `Rewards.RewardName` | script.js:854 | the first reward carrying the id gives its own name, or "Unknown Reward" when that name is empty; an id no reward carries gives "Unknown Reward"; any other name shown is the name of a reward carrying that id |
| `Rewards.CatalogNamesResolve` | script.js:854 | every catalogue id resolves to that reward's own name, never "Unknown Reward" |
| `Rewards.RedeemedBalance` | script.js:863-868 | a redemption fails exactly when points < cost; otherwise the balance drops by exactly cost and is not negative |
| `Suggestions.Insert` | script.js:1061-1069 | inserting into a list in suggestion order keeps that order and adds exactly the one suggestion |
| `Suggestions.SortSuggestions` | script.js:1060-1072 | the result is in suggestion order (fill ascending, then distance when the position is known) and is a permutation of the bins |
| `Suggestions.FirstSuggestionLeastFull` | script.js:1061-1072 | the first suggestion has the least fill of all bins |
| `Suggestions.ShowsOverflowWarning` | script.js:1075-1078 | the "some bins are full" warning shows exactly when some bin's fill would be classed Full |
| `Suggestions.DepositIgnoresDistance` | script.js:771 | for two equally full bins of one category, the deposit picks the first even when the second is nearer, while every located suggestion order lists the nearer one first |
| `App.Session.constructor` | script.js:1-41 | a fresh session has the nine seed bins, nobody signed in, zero points and carbon, an empty log and the stored registry |
| `App.Session.AddHistoryEntry` | script.js:643-656 | the log becomes Prepend of the old log, and stays within 50 |
| `App.Session.SaveUserData` | script.js:157-172 | without a signed-in user nothing changes; otherwise exactly that user's record becomes the saved record |
| `App.Session.LoadUserData` | script.js:179-191 | returns false and changes nothing when the user has no record; otherwise the session takes that record's name, points, carbon and log |
| `App.Session.SubmitAuth` | script.js:219-279 | a failing check reports its error and changes nothing; registration adds exactly one fresh record and signs the user in with zero figures; login signs the user in with the stored figures and leaves the registry as it was |
| `App.Session.RegisterUser` | script.js:247-265 | once the checks pass, exactly one fresh record is added under the name and the user is signed in and remembered with zero points, zero carbon and an empty log |
| `App.Session.LoginUser` | script.js:266-277 | once the checks pass, the user is signed in and remembered with the stored points, carbon and log, and the registry is left as it was |
| `App.Session.Logout` | script.js:281-312 | the session is cleared, the remembered user is forgotten and the registry is kept |
| `App.Session.ResumeSession` | script.js:371-377 | resumes exactly when the remembered user (kept as it was) is non-empty and has a record; then that user is signed in with the stored points, carbon and log and the registry is unchanged; otherwise nothing changes |
| `App.Session.ThrowWaste` | script.js:715-810 | each failure (no user, no bins, a cancelled choice, no bin of the waste's own category below 100%) is reported exactly when its condition holds and changes nothing; when a bin of the waste's category is below 100% the deposit happens: the chosen bin is the first least-full candidate of the waste's category, it alone changes (as Deposited), points rise by 1, carbon by the waste's impact, one log line is prepended and the user's record is saved |
| `App.Session.Deposit` | script.js:774-798 | the chosen bin alone changes (as Deposited); points rise by exactly 1, carbon by the waste's impact; one log line naming that bin is prepended; the user's record is saved |
| `App.Session.Redeem` | script.js:846-872 | "log in" exactly without a user, declined exactly when a signed-in user does not confirm, "not enough points" exactly when a confirming user has fewer points than the cost, and each changes nothing; otherwise the redemption succeeds: points drop by exactly cost (staying ≥ 0), one log line with −cost is prepended and the record is saved |

## Left out

- Rendering, the modal dialogs and their promises, and event wiring are not modelled (`script.js:89-119`, `196-217`, `318-355`, `405-498`, `505-710`, `815-843`). Their answers are method parameters.
- The map is not modelled: Leaflet setup, markers, fit-bounds and the polling loop that waits for the library to load (`script.js:357-402`, `880-894`, `1011-1052`). They belong to a foreign library and a timer. Only the auto-login step of that start-up code is kept, as `ResumeSession`.
- Geolocation and the Haversine distance are not modelled (`script.js:899-1006`, `1120-1131`). They are browser I/O and floating-point trigonometry. Each suggestion carries an opaque integer distance key instead, and bins carry no coordinates.
- The classifier is not modelled: the image model, the webcam, the arg-max in `predict` and the 0.7 confidence gate (`script.js:729`, `1134-1230`). They are foreign calls returning floating-point probabilities. `prediction` stands for a label that passed the gate.
- Reading and writing browser storage and the JSON encoding are not modelled (`script.js:141-152`). They are I/O, so the registry is the map `store`. The constructor requires the stored records to be ones this program could have written.
- `Math.random()` and `new Date()` are not modelled. They become the parameters `k` and `now`.
- The carbon figures and their `toFixed` display are not modelled as floating point. They are exact integers in tenths of a kilogram, and the kilogram-to-tonne display is left out.
- Waste.ToLower: models only the ASCII case mapping; `toLowerCase` also lowers non-ASCII letters. The only non-ASCII characters whose lower case contains ASCII letters are the Kelvin sign (to `k`) and U+0130 (to `i` followed by a combining dot). No recognised label contains `k` or a combining dot, so `MapTmClassToWasteType` gives the script's answer on every string.
- App.Session.LoadUserData: treats a name without a record as absent. In the script an inherited member name such as `constructor` is truthy and would be "loaded" as a record of undefined fields. Only names that passed registration or login are ever remembered or loaded, and those are never inherited names.
- Accounts.CheckAuth: counts password length in characters. JavaScript counts UTF-16 code units, so the two differ only for characters outside the Basic Multilingual Plane.
- Suggestions.SortSuggestions: does not prove that equal keys keep their order. `Array.prototype.sort` is stable, so the source's order among bins with equal keys is the array order, and the model leaves it open.
- App.Session.Redeem: takes the cost as an integer. The `parseInt` of a button attribute that is not a number (NaN) is not modelled. Every catalogue button carries an integer cost.
- App.Session.SubmitAuth: models the net effect of registration. The source writes the record without a `username` field, and the save in the UI refresh that follows immediately adds the field.
- The fallback colour of `getStatusColorClass` and `getStatusColorForMap` is not modelled. Status is a closed datatype here, so the fallback cannot be reached.
- Interleaving of handlers while a modal is awaited is not modelled (for example, a redemption while a deposit waits for its waste-type choice). Every handler runs here as one atomic step.
