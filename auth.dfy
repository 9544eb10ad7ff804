/**
 * The page-local sign-in of js/auth.js: a fixed list of users (or one the page supplies), a
 * session store holding the signed-in username under one key, and the guard that sends an
 * anonymous visitor to the login page with the page they wanted as a `redirect` parameter.
 */
module Auth {
  import opened Util
  import opened JsText

  datatype User = User(username: string, password: string)

  /** What `login` returns: `{ ok: true, user }` or `{ ok: false, message }`. */
  datatype LoginResult = LoginOk(user: string) | LoginRejected(message: string)

  /** The parts of `window.location` the guard reads. */
  datatype Location = Location(pathname: string, search: string, hash: string)

  /** The options of `requireAuth`: `loginPage` (absent or empty means the default) and `skipRedirect`. */
  datatype AuthOptions = AuthOptions(loginPage: Option<string>, skipRedirect: bool)

  const LoginPage: string := "index.html"
  const SessionKey: string := "skyshield_auth_user"
  const DefaultRedirectPage: string := "control.html"
  const EnterBothMessage: string := "Enter both username and password."
  const InvalidMessage: string := "Invalid username or password."

  const DefaultUsers: seq<User> := [
    User("commander", "shield123"),
    User("observer", "falcon987"),
    User("a", "a")]

  /** `USERS`: the page's `SkyShieldUsers` when it is a non-empty array, else the built-in list. */
  function SelectUsers(configured: Option<seq<User>>): (users: seq<User>)
    ensures users != []
    ensures configured.Some? && configured.value != [] ==> users == configured.value
    ensures configured.None? || configured.value == [] ==> users == DefaultUsers
  {
    if configured.Some? && configured.value != [] then configured.value else DefaultUsers
  }

  /** `normalizeUsername(value)`: `null`/`undefined` read as the empty string, then trimmed and lower-cased. */
  function NormalizeUsername(value: Option<string>): (r: string)
    ensures |r| == |Trim(value.GetOr(""))|
  {
    Lower(Trim(value.GetOr("")))
  }

  /** Normalising is idempotent, and normalising a trimmed name is normalising the name. */
  lemma NormalizeUsernameStable(value: Option<string>)
    ensures NormalizeUsername(Some(NormalizeUsername(value))) == NormalizeUsername(value)
    ensures NormalizeUsername(Some(Trim(value.GetOr("")))) == NormalizeUsername(value)
    ensures value.None? ==> NormalizeUsername(value) == ""
  {
    TrimLowerIdempotent(value.GetOr(""));
    TrimIdempotent(value.GetOr(""));
  }

  predicate NameMatches(u: User, key: string) {
    NormalizeUsername(Some(u.username)) == key
  }

  /** The first user whose normalised name is `key`. */
  function FindNormalized(users: seq<User>, key: string): (r: Option<User>)
    ensures r.Some? ==> r.value in users && NameMatches(r.value, key)
  {
    if users == [] then None
    else if NameMatches(users[0], key) then Some(users[0])
    else FindNormalized(users[1..], key)
  }

  /** `findUser(username)`: `USERS.find` on the normalised name. */
  function FindUser(users: seq<User>, username: Option<string>): Option<User> {
    FindNormalized(users, NormalizeUsername(username))
  }

  /** `find` returns the first match, and nothing exactly when no user matches. */
  lemma {:induction false} FindNormalizedIsFirst(users: seq<User>, key: string)
    ensures FindNormalized(users, key).None? <==> forall u :: u in users ==> !NameMatches(u, key)
    ensures FindNormalized(users, key).Some? ==>
      exists i :: 0 <= i < |users| && users[i] == FindNormalized(users, key).value
        && forall j :: 0 <= j < i ==> !NameMatches(users[j], key)
  {
    if users != [] && !NameMatches(users[0], key) {
      FindNormalizedIsFirst(users[1..], key);
      assert forall u :: u in users ==> u == users[0] || u in users[1..];
      if FindNormalized(users[1..], key).Some? {
        var i :| 0 <= i < |users[1..]| && users[1..][i] == FindNormalized(users[1..], key).value
          && forall j :: 0 <= j < i ==> !NameMatches(users[1..][j], key);
        assert users[i + 1] == FindNormalized(users, key).value;
        assert forall j :: 0 <= j < i + 1 ==> !NameMatches(users[j], key) by {
          forall j | 0 <= j < i + 1 ensures !NameMatches(users[j], key) {
            if j > 0 {
              assert users[j] == users[1..][j - 1];
            }
          }
        }
      }
    } else if users != [] {
      assert users[0] == FindNormalized(users, key).value;
    }
  }

  /** `login(username, password)` as a decision; a success names the record's own username. */
  function LoginDecision(users: seq<User>, username: Option<string>, password: Option<string>): LoginResult {
    var trimmedUser := Trim(username.GetOr(""));
    var suppliedPassword := password.GetOr("");
    if trimmedUser == [] || suppliedPassword == [] then LoginRejected(EnterBothMessage)
    else match FindUser(users, Some(trimmedUser))
      case None => LoginRejected(InvalidMessage)
      case Some(record) =>
        if record.password != suppliedPassword then LoginRejected(InvalidMessage) else LoginOk(record.username)
  }

  /**
   * A blank name or password is refused with "Enter both"; otherwise the login succeeds
   * exactly when the first user matching the name has exactly this password, and the result
   * is that user's stored name, which is never empty.
   */
  lemma LoginOutcome(users: seq<User>, username: Option<string>, password: Option<string>)
    ensures Trim(username.GetOr("")) == [] || password.GetOr("") == [] ==>
      LoginDecision(users, username, password) == LoginRejected(EnterBothMessage)
    ensures Trim(username.GetOr("")) != [] && password.GetOr("") != [] ==>
      var found := FindUser(users, username);
      LoginDecision(users, username, password) ==
        (if found.Some? && found.value.password == password.GetOr("") then LoginOk(found.value.username)
         else LoginRejected(InvalidMessage))
    ensures LoginDecision(users, username, password).LoginOk? ==>
      LoginDecision(users, username, password).user != ""
  {
    NormalizeUsernameStable(username);
    var r := LoginDecision(users, username, password);
    if r.LoginOk? {
      var record := FindUser(users, username).value;
      assert NormalizeUsername(Some(record.username)) == NormalizeUsername(username);
      assert |NormalizeUsername(username)| == |Trim(username.GetOr(""))| > 0;
    }
  }

  /** Names that normalise alike log in alike: case and surrounding spaces do not matter. */
  lemma LoginIgnoresCaseAndSpaces(users: seq<User>, u1: Option<string>, u2: Option<string>, password: Option<string>)
    requires NormalizeUsername(u1) == NormalizeUsername(u2)
    ensures LoginDecision(users, u1, password) == LoginDecision(users, u2, password)
  {
    NormalizeUsernameStable(u1);
    NormalizeUsernameStable(u2);
    assert |Trim(u1.GetOr(""))| == |Trim(u2.GetOr(""))|;
  }

  /** The last `/`-separated segment of a path: what `split('/').pop()` returns. */
  function LastSegment(path: string): (seg: string)
    ensures |seg| <= |path| && seg == path[|path| - |seg|..]
    ensures forall i :: 0 <= i < |seg| ==> seg[i] != '/'
  {
    if path == [] || path[|path| - 1] == '/' then []
    else LastSegment(path[..|path| - 1]) + [path[|path| - 1]]
  }

  /** What precedes the last segment is empty or ends with `/`: the segment is the whole tail after the last slash. */
  lemma {:induction false} LastSegmentIsWholeTail(path: string)
    ensures var seg := LastSegment(path);
      |seg| == |path| || path[|path| - |seg| - 1] == '/'
  {
    if path != [] && path[|path| - 1] != '/' {
      LastSegmentIsWholeTail(path[..|path| - 1]);
    }
  }

  /** The unencoded `redirect` value: the page's file name (or `control.html`), its query and its fragment. */
  function RedirectTarget(loc: Location): (t: string)
    ensures |t| > 0
  {
    var seg := LastSegment(loc.pathname);
    (if seg == [] then DefaultRedirectPage else seg) + loc.search + loc.hash
  }

  /** A location in a directory (`/app/`) redirects back to the control page. */
  lemma DirectoryRedirectsToControl(loc: Location)
    requires loc.pathname != [] && loc.pathname[|loc.pathname| - 1] == '/'
    ensures RedirectTarget(loc) == DefaultRedirectPage + loc.search + loc.hash
  {
  }

  /** Where an anonymous visitor is sent: the login page, with `?redirect=` unless it is skipped. */
  function LoginUrl(options: AuthOptions, loc: Location, encode: string -> string): string {
    var loginTarget := if options.loginPage.Some? && options.loginPage.value != "" then options.loginPage.value else LoginPage;
    loginTarget + (if options.skipRedirect then "" else "?redirect=" + encode(RedirectTarget(loc)))
  }

  /**
   * The login URL starts with the configured login page (`index.html` when none is given)
   * and carries a `redirect` parameter exactly when it is not skipped.
   */
  lemma LoginUrlParts(options: AuthOptions, loc: Location, encode: string -> string)
    ensures var page := if options.loginPage.Some? && options.loginPage.value != "" then options.loginPage.value else LoginPage;
      var url := LoginUrl(options, loc, encode);
      |page| <= |url| && url[..|page|] == page
      && (options.skipRedirect <==> url == page)
      && (!options.skipRedirect ==> url[|page|..] == "?redirect=" + encode(RedirectTarget(loc)))
  {
  }

  /** The session of one browser tab: its session storage and the navigation the page has asked for. */
  class AuthSession {
    const users: seq<User>
    var storage: map<string, string>
    var navigation: Option<string>

    /** The page loads with `SkyShieldUsers` as configured and the tab's current session storage. */
    constructor (configured: Option<seq<User>>, session: map<string, string>)
      ensures users == SelectUsers(configured) && storage == session && navigation == None
    {
      users := SelectUsers(configured);
      storage := session;
      navigation := None;
    }

    /** `isAuthenticated()`: a non-empty value is stored under the session key. */
    predicate IsAuthenticated()
      reads this
    {
      SessionKey in storage && storage[SessionKey] != ""
    }

    /** `currentUser()`: the stored value, or `null`. */
    function CurrentUser(): (u: Option<string>)
      reads this
      ensures u.Some? <==> SessionKey in storage
      ensures IsAuthenticated() <==> u.Some? && u.value != ""
    {
      if SessionKey in storage then Some(storage[SessionKey]) else None
    }

    /** `login(username, password)`: on success the record's name is stored under the session key; nothing else changes. */
    method Login(username: Option<string>, password: Option<string>) returns (r: LoginResult)
      modifies this`storage
      ensures r == LoginDecision(users, username, password)
      ensures r.LoginOk? ==> storage == old(storage)[SessionKey := r.user] && IsAuthenticated()
      ensures r.LoginRejected? ==> storage == old(storage)
    {
      var trimmedUser := Trim(username.GetOr(""));
      var suppliedPassword := password.GetOr("");
      if trimmedUser == [] || suppliedPassword == [] {
        return LoginRejected(EnterBothMessage);
      }
      var record := FindUser(users, Some(trimmedUser));
      if record.None? || record.value.password != suppliedPassword {
        return LoginRejected(InvalidMessage);
      }
      LoginOutcome(users, username, password);
      storage := storage[SessionKey := record.value.username];
      return LoginOk(record.value.username);
    }

    /** `logout()`: the session key is removed and the tab is signed out. */
    method Logout()
      modifies this`storage
      ensures storage == old(storage) - {SessionKey}
      ensures !IsAuthenticated() && CurrentUser() == None
    {
      storage := storage - {SessionKey};
    }

    /** A click on a `data-action="logout"` element: sign out and go to the login page. */
    method LogoutClick()
      modifies this`storage, this`navigation
      ensures storage == old(storage) - {SessionKey} && navigation == Some(LoginPage)
    {
      Logout();
      navigation := Some(LoginPage);
    }

    /** `requireAuth(options)`: true and no navigation when signed in; otherwise off to the login page, and false. */
    method RequireAuth(options: AuthOptions, loc: Location, encode: string -> string) returns (allowed: bool)
      modifies this`navigation
      ensures allowed == IsAuthenticated()
      ensures allowed ==> navigation == old(navigation)
      ensures !allowed ==> navigation == Some(LoginUrl(options, loc, encode))
    {
      if IsAuthenticated() {
        return true;
      }
      navigation := Some(LoginUrl(options, loc, encode));
      return false;
    }
  }
}
