/**
 * The account registry kept under one storage key: records keyed by user
 * name, the checks of the login/register form, and the record a save writes.
 */
module Accounts {
  import opened Wrappers
  import opened History

  /** A stored account. Carbon saved is in tenths of a kilogram of CO2e. */
  datatype Account = Account(
    username: string,
    password: string,
    points: int,
    carbonSaved: int,
    history: seq<HistoryEntry>)

  /** The registry, as the in-memory object behind `registered_users`. */
  type Store = map<string, Account>

  /** The characters `String.prototype.trim` removes: white space and line terminators. */
  predicate IsTrimmable(c: char)
  {
    c == '\t' || c == '\U{000B}' || c == '\U{000C}' || c == ' ' || c == '\U{00A0}' ||
    c == '\U{FEFF}' || c == '\U{1680}' || ('\U{2000}' <= c <= '\U{200A}') ||
    c == '\U{202F}' || c == '\U{205F}' || c == '\U{3000}' ||
    c == '\n' || c == '\r' || c == '\U{2028}' || c == '\U{2029}'
  }

  /** The number of trimmable characters at the start of s. */
  function LeadingSpace(s: string): (n: nat)
    ensures n <= |s|
    ensures forall i :: 0 <= i < n ==> IsTrimmable(s[i])
    ensures n < |s| ==> !IsTrimmable(s[n])
  {
    if |s| > 0 && IsTrimmable(s[0]) then 1 + LeadingSpace(s[1..]) else 0
  }

  /** The number of trimmable characters at the end of s. */
  function TrailingSpace(s: string): (n: nat)
    ensures n <= |s|
    ensures forall i :: |s| - n <= i < |s| ==> IsTrimmable(s[i])
    ensures n < |s| ==> !IsTrimmable(s[|s| - n - 1])
  {
    if |s| > 0 && IsTrimmable(s[|s| - 1]) then 1 + TrailingSpace(s[..|s| - 1]) else 0
  }

  /**
   * `String.prototype.trim`: the part of s between its leading and trailing
   * white space; everything cut off is white space and what is kept neither
   * starts nor ends with it.
   */
  function Trim(s: string): (t: string)
    ensures LeadingSpace(s) + |t| <= |s| && t == s[LeadingSpace(s)..LeadingSpace(s) + |t|]
    ensures forall i :: 0 <= i < |s| && !(LeadingSpace(s) <= i < LeadingSpace(s) + |t|) ==>
              IsTrimmable(s[i])
    ensures |t| > 0 ==> !IsTrimmable(t[0]) && !IsTrimmable(t[|t| - 1])
  {
    var lead := LeadingSpace(s);
    if lead == |s| then [] else s[lead..|s| - TrailingSpace(s)]
  }

  /** A name trims to nothing exactly when it is all white space. */
  lemma TrimEmptyIffBlank(s: string)
    ensures Trim(s) == [] <==> forall i :: 0 <= i < |s| ==> IsTrimmable(s[i])
  {
  }

  /** Trimming a trimmed string changes nothing. */
  lemma TrimIdempotent(s: string)
    ensures Trim(Trim(s)) == Trim(s)
  {
    var t := Trim(s);
    if |t| > 0 {
      assert LeadingSpace(t) == 0;
      assert TrailingSpace(t) == 0;
    }
  }

  datatype AuthMode = LoginMode | RegisterMode

  /** The error messages of the login/register form, one constructor each. */
  datatype AuthError =
    | MissingFields        // "Please fill in all fields."
    | PasswordMismatch     // "Passwords do not match."
    | PasswordTooShort     // "Password must be at least 6 characters long."
    | UsernameTaken        // "Username already exists."
    | InvalidCredentials   // "Invalid username or password."

  const MinPasswordLength: nat := 6

  /**
   * The names every plain JavaScript object answers to through
   * `Object.prototype`: looking one up in the registry object is truthy even
   * when no user of that name exists.
   */
  const InheritedNames: set<string> := {
    "constructor", "__proto__", "hasOwnProperty", "isPrototypeOf",
    "propertyIsEnumerable", "toLocaleString", "toString", "valueOf",
    "__defineGetter__", "__defineSetter__", "__lookupGetter__", "__lookupSetter__" }

  /** `users[username]` is truthy: an own record, or an inherited member. */
  predicate NameTaken(store: Store, username: string)
  {
    username in store || username in InheritedNames
  }

  /**
   * The checks of the form's submit handler, in the script's order, on the
   * trimmed user name. None means the registration or login goes ahead.
   */
  function CheckAuth(store: Store, mode: AuthMode, username: string, password: string,
                     confirm: string): (r: Option<AuthError>)
    ensures mode == RegisterMode ==>
              (r.None? <==> username != "" && password == confirm &&
                            |password| >= MinPasswordLength && !NameTaken(store, username))
    ensures mode == LoginMode ==>
              (r.None? <==> username != "" && password != "" &&
                            username in store && store[username].password == password)
    ensures r == Some(MissingFields) <==> username == "" || password == ""
    ensures r == Some(PasswordMismatch) <==>
              mode == RegisterMode && username != "" && password != "" && password != confirm
    ensures r == Some(PasswordTooShort) <==>
              mode == RegisterMode && username != "" && password != "" && password == confirm &&
              |password| < MinPasswordLength
    ensures r == Some(UsernameTaken) <==>
              mode == RegisterMode && username != "" && password == confirm &&
              |password| >= MinPasswordLength && NameTaken(store, username)
    ensures r == Some(InvalidCredentials) <==>
              mode == LoginMode && username != "" && password != "" &&
              (username !in store || store[username].password != password)
  {
    if username == "" || password == "" then Some(MissingFields)
    else if mode == RegisterMode then
      if password != confirm then Some(PasswordMismatch)
      else if |password| < MinPasswordLength then Some(PasswordTooShort)
      else if NameTaken(store, username) then Some(UsernameTaken)
      else None
    // An inherited member has no `password`, so only an own record can match.
    else
      assert mode == LoginMode;
      if username !in store || store[username].password != password then Some(InvalidCredentials)
      else None
  }

  /** The record a registration leaves behind: zero points, no carbon, empty log. */
  function NewAccount(username: string, password: string): Account
  {
    Account(username, password, 0, 0, [])
  }

  /**
   * `saveUserDataToLocalStorage`'s record for the signed-in user: the
   * session's figures, with the stored password kept, or "" when the user has
   * no record yet.
   */
  function SavedAccount(store: Store, username: string, points: int, carbonSaved: int,
                        history: seq<HistoryEntry>): (a: Account)
    ensures username in store ==> a.password == store[username].password
    ensures username !in store ==> a.password == ""
    ensures a.username == username && a.points == points && a.carbonSaved == carbonSaved
    ensures a.history == history
  {
    Account(username, if username in store then store[username].password else "",
            points, carbonSaved, history)
  }

  /** Registration never replaces an existing account: every other record stays. */
  lemma RegisterKeepsOthers(store: Store, u: string, pw: string, confirm: string, v: string)
    requires CheckAuth(store, RegisterMode, u, pw, confirm) == None
    requires v in store
    ensures v != u && v in store[u := NewAccount(u, pw)]
    ensures store[u := NewAccount(u, pw)][v] == store[v]
  {
  }

  /** A user who has just registered can log in with the same name and password. */
  lemma LoginAfterRegister(store: Store, u: string, pw: string, confirm: string, later: string)
    requires CheckAuth(store, RegisterMode, u, pw, confirm) == None
    ensures CheckAuth(store[u := NewAccount(u, pw)], LoginMode, u, pw, later) == None
  {
  }

  /** Saving the session never changes the password, so it never locks a user out. */
  lemma LoginAfterSave(store: Store, u: string, pw: string, confirm: string,
                       points: int, carbon: int, history: seq<HistoryEntry>)
    requires CheckAuth(store, LoginMode, u, pw, confirm) == None
    ensures CheckAuth(store[u := SavedAccount(store, u, points, carbon, history)],
                      LoginMode, u, pw, confirm) == None
  {
  }
}
