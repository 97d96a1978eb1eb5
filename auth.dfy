/** WordPress JWT authentication: message cleaning, login and logout over the browser store, registration and token checks. */
module Auth {
  import opened Wrappers

  // ------------------------------------------------------------ stripHtml

  /** A server message: a string, or some other (truthy) value such as an object. */
  datatype RawMessage = TextMsg(text: string) | NonText

  /** What is left after a '<': everything after the next '>', or nothing when no '>' follows. */
  function AfterTag(s: string): (r: string)
    ensures |r| < |s| || (r == [] && s == [])
    ensures '>' !in s ==> r == []
    ensures r == s[|s| - |r|..]
  {
    if s == [] then []
    else if s[0] == '>' then s[1..]
    else AfterTag(s[1..])
  }

  /** `replace(/<[^>]*>?/gm, '')`: each '<' goes, with what follows it up to and including the next '>'. */
  function StripTags(s: string): (r: string)
    ensures |r| <= |s|
    ensures '<' !in r
    decreases |s|
  {
    if s == [] then []
    else if s[0] == '<' then StripTags(AfterTag(s[1..]))
    else [s[0]] + StripTags(s[1..])
  }

  /** `stripHtml(html)`: strings are cleaned, other values are returned as they are. */
  function StripHtml(m: RawMessage): (r: RawMessage)
    ensures m.NonText? ==> r == m
    ensures m.TextMsg? ==> r.TextMsg? && '<' !in r.text && |r.text| <= |m.text|
  {
    match m
    case TextMsg(s) => TextMsg(StripTags(s))
    case NonText => NonText
  }

  /** Text without '<' comes through unchanged. */
  lemma {:induction false} StripTagsPlain(s: string)
    requires '<' !in s
    ensures StripTags(s) == s
  {
    if s != [] {
      assert s[1..] == s[1..];
      assert '<' !in s[1..] by {
        forall i | 0 <= i < |s[1..]| ensures s[1..][i] != '<' {
          assert s[1..][i] == s[i + 1];
        }
      }
      StripTagsPlain(s[1..]);
    }
  }

  /** Cleaning twice is cleaning once. */
  lemma {:induction false} StripHtmlIdempotent(m: RawMessage)
    ensures StripHtml(StripHtml(m)) == StripHtml(m)
  {
    if m.TextMsg? {
      StripTagsPlain(StripTags(m.text));
    }
  }

  /** A closed tag between two pieces of text disappears and the text around it stays. */
  lemma {:induction false} StripClosedTag(before: string, tag: string, after: string)
    requires '<' !in before && '>' !in tag
    ensures StripTags(before + "<" + tag + ">" + after) == before + StripTags(after)
  {
    var rest := "<" + (tag + ">" + after);
    assert before + "<" + tag + ">" + after == before + rest;
    StripPrefixPlain(before, rest);
    StripOpenTag(tag + ">" + after);
    SkipTag(tag, after);
  }

  lemma {:induction false} StripOpenTag(t: string)
    ensures StripTags("<" + t) == StripTags(AfterTag(t))
  {
    assert ("<" + t)[0] == '<' && ("<" + t)[1..] == t;
  }

  lemma {:induction false} SkipTag(tag: string, after: string)
    requires '>' !in tag
    ensures AfterTag(tag + ">" + after) == after
  {
    if tag == [] {
      assert tag + ">" + after == ">" + after;
    } else {
      assert tag[0] != '>';
      assert (tag + ">" + after)[1..] == tag[1..] + ">" + after;
      SkipTag(tag[1..], after);
    }
  }

  lemma {:induction false} StripPrefixPlain(before: string, rest: string)
    requires '<' !in before
    ensures StripTags(before + rest) == before + StripTags(rest)
  {
    if before == [] {
      assert before + rest == rest;
    } else {
      assert before[0] != '<';
      assert (before + rest)[1..] == before[1..] + rest;
      StripPrefixPlain(before[1..], rest);
    }
  }

  /** A '<' with no '>' after it removes the rest of the text. */
  lemma {:induction false} StripUnclosedTag(before: string, tail: string)
    requires '<' !in before && '>' !in tail
    ensures StripTags(before + "<" + tail) == before
  {
    var rest := "<" + tail;
    assert before + "<" + tail == before + rest;
    StripPrefixPlain(before, rest);
    StripOpenTag(tail);
    var t := AfterTag(tail);
    assert t == [];
    assert StripTags(t) == [];
    assert before + [] == before;
  }

  // ------------------------------------------------------------ login, logout and the browser store

  /** The user record login stores and returns. */
  datatype UserInfo = UserInfo(email: string, username: string, displayName: string)

  /** The token endpoint's answer; `token` is `None` when the body has none. */
  datatype TokenData = TokenData(token: Option<string>, userEmail: string, userNicename: string, userDisplayName: string)

  /** A failed request: the HTTP status and `data.message`, `None` when there is no response or no message.
    * A falsy message other than the empty string (`0`, `false`, `null`) also arrives as `None`. */
  datatype RequestError = RequestError(status: Option<int>, message: Option<RawMessage>)

  datatype LoginResult = LoggedIn(token: Option<string>, user: UserInfo) | LoginFailed(error: RawMessage)

  /** The `user_data` entry: the JSON that login writes, or some other string another writer left there. */
  datatype StoredUser = UserJson(user: UserInfo) | Unparsable(raw: string)

  /** The current user: the stored record plus the token. */
  datatype CurrentUser = CurrentUser(user: UserInfo, token: string)

  const LoginDefault: string := "Login failed. Please check your credentials."

  /** `error.response?.data?.message || fallback`, cleaned: an absent or empty message gives way to the fallback. */
  function CleanMessage(e: RequestError, fallback: string): (r: RawMessage)
    ensures e.message.None? || e.message == Some(TextMsg("")) ==> r == TextMsg(StripTags(fallback))
    ensures e.message.Some? && e.message != Some(TextMsg("")) ==> r == StripHtml(e.message.value)
  {
    StripHtml(if e.message.Some? && e.message.value != TextMsg("") then e.message.value else TextMsg(fallback))
  }

  /** `localStorage.setItem` turns a missing token into the string "undefined". */
  function StoredToken(token: Option<string>): (r: string)
    ensures token.Some? ==> r == token.value
    ensures token.None? ==> r == "undefined"
  {
    if token.Some? then token.value else "undefined"
  }

  /** The two entries of `localStorage` this module uses; other keys are not touched and not modelled. */
  class AuthStore {
    /** `typeof window !== 'undefined'`: running in a browser. */
    const inBrowser: bool
    var authToken: Option<string>
    var userData: Option<StoredUser>
    /** Where the page was sent, if anywhere. */
    var location: Option<string>

    constructor(inBrowser: bool, authToken: Option<string>, userData: Option<StoredUser>)
      ensures this.inBrowser == inBrowser && this.authToken == authToken && this.userData == userData
      ensures location.None?
    {
      this.inBrowser := inBrowser;
      this.authToken := authToken;
      this.userData := userData;
      location := None;
    }

    /** `isAuthenticated()`: in a browser, with a non-empty stored token. */
    function Authenticated(): bool
      reads this
    {
      inBrowser && authToken.Some? && authToken.value != ""
    }

    /** `getCurrentUser()`: in a browser, with both entries present and non-empty and the user entry parsable. */
    function Current(): (r: Option<CurrentUser>)
      reads this
      ensures r.Some? ==> inBrowser && authToken == Some(r.value.token) && r.value.token != ""
      ensures r.Some? ==> userData == Some(UserJson(r.value.user))
      ensures r.None? ==> !inBrowser || authToken.None? || authToken.value == "" || userData.None? || userData.value.Unparsable?
    {
      if !inBrowser || authToken.None? || authToken.value == "" || userData.None? then None
      else match userData.value
        case UserJson(u) => Some(CurrentUser(u, authToken.value))
        case Unparsable(_) => None
    }

    /** `login(username, password)` given the token endpoint's answer: success stores both entries (in a browser)
      * and returns the token and user; failure stores nothing and returns the cleaned message. */
    method Login(response: Result<TokenData, RequestError>) returns (r: LoginResult)
      modifies this
      ensures response.Ok? ==>
        var d := response.value;
        r == LoggedIn(d.token, UserInfo(d.userEmail, d.userNicename, d.userDisplayName))
      ensures response.Ok? && inBrowser ==>
        authToken == Some(StoredToken(response.value.token)) && userData == Some(UserJson(r.user))
      ensures response.Ok? && !inBrowser ==> authToken == old(authToken) && userData == old(userData)
      ensures response.Err? ==>
        r == LoginFailed(CleanMessage(response.error, LoginDefault))
        && authToken == old(authToken) && userData == old(userData)
      ensures location == old(location)
    {
      match response {
        case Ok(d) =>
          var user := UserInfo(d.userEmail, d.userNicename, d.userDisplayName);
          if inBrowser {
            authToken := Some(StoredToken(d.token));
            userData := Some(UserJson(user));
          }
          r := LoggedIn(d.token, user);
        case Err(e) =>
          r := LoginFailed(CleanMessage(e, LoginDefault));
      }
    }

    /** `logout()`: in a browser, removes both entries and sends the page to '/'. */
    method Logout()
      modifies this
      ensures inBrowser ==> authToken.None? && userData.None? && location == Some("/")
      ensures !inBrowser ==> authToken == old(authToken) && userData == old(userData) && location == old(location)
      ensures !Authenticated() && Current().None?
    {
      if inBrowser {
        authToken := None;
        userData := None;
        location := Some("/");
      }
    }

    method GetCurrentUser() returns (u: Option<CurrentUser>)
      ensures u == Current()
    {
      u := Current();
    }

    method IsAuthenticated() returns (b: bool)
      ensures b == Authenticated()
    {
      b := Authenticated();
    }
  }

  /** Logging in with a non-empty token makes the browser authenticated, with the logged-in user as current user. */
  method LoginThenCurrent(store: AuthStore, d: TokenData) returns (u: Option<CurrentUser>)
    requires store.inBrowser
    modifies store
    ensures store.Authenticated() <==> StoredToken(d.token) != ""
    ensures d.token.Some? && d.token.value != "" ==>
      u == Some(CurrentUser(UserInfo(d.userEmail, d.userNicename, d.userDisplayName), d.token.value))
    ensures d.token.None? ==> store.Authenticated()
  {
    var r := store.Login(Ok(d));
    u := store.GetCurrentUser();
  }

  // ------------------------------------------------------------ register and validateToken

  /** The registration request body; first and last names default to ''. */
  datatype RegisterRequest = RegisterRequest(username: string, email: string, password: string, firstName: string, lastName: string)

  function RegisterBody(username: string, email: string, password: string, firstName: string := "", lastName: string := ""): (r: RegisterRequest)
    ensures r.username == username && r.email == email && r.password == password
    ensures r.firstName == firstName && r.lastName == lastName
  {
    RegisterRequest(username, email, password, firstName, lastName)
  }

  datatype RegisterResult = Registered(message: string) | RegisterFailed(error: RawMessage)

  const RegisterSuccess: string := "Registration successful. Please check your email for verification."
  const RegisterUnavailable: string := "Registration is currently unavailable. Please contact support."
  const RegisterDefault: string := "Registration failed. Please try again."

  /** `register`'s answer: the fixed success message, the fixed "unavailable" message on a 404, otherwise the
    * cleaned server message or a default. */
  function RegisterOutcome(response: Result<(), RequestError>): (r: RegisterResult)
    ensures response.Ok? <==> r.Registered?
    ensures r.Registered? ==> r.message == RegisterSuccess
    ensures response.Err? && response.error.status == Some(404) ==> r == RegisterFailed(TextMsg(RegisterUnavailable))
    ensures response.Err? && response.error.status != Some(404) ==> r == RegisterFailed(CleanMessage(response.error, RegisterDefault))
  {
    match response
    case Ok(_) => Registered(RegisterSuccess)
    case Err(e) =>
      if e.status == Some(404) then RegisterFailed(TextMsg(RegisterUnavailable))
      else RegisterFailed(CleanMessage(e, RegisterDefault))
  }

  /** `validateToken(token)`: posts with a bearer header; true exactly when the answer's code is
    * 'jwt_auth_valid_token', false when the call fails. */
  function ValidateToken(token: string, post: string -> Result<Option<string>, string>): (r: bool)
    ensures r <==> post("Bearer " + token) == Ok(Some("jwt_auth_valid_token"))
  {
    match post("Bearer " + token)
    case Ok(code) => code == Some("jwt_auth_valid_token")
    case Err(_) => false
  }
}
