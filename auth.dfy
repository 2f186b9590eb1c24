/**
 * The sign-in / sign-up page: the credential schema, first-issue reporting,
 * the login/signup toggle and the redirect of a signed-in visitor.
 */
module Auth {
  import opened Wrappers
  import opened Text

  const InvalidEmail: string := "Invalid email address"
  const EmailTooLong: string := "Email too long"
  const PasswordTooShort: string := "Password must be at least 8 characters"
  const PasswordTooLong: string := "Password too long"
  const NeedsUppercase: string := "Password must contain at least one uppercase letter"
  const NeedsLowercase: string := "Password must contain at least one lowercase letter"
  const NeedsDigit: string := "Password must contain at least one number"

  const AppRoute: string := "/app"

  predicate HasUpper(s: string) { exists i :: 0 <= i < |s| && 'A' <= s[i] <= 'Z' }
  predicate HasLower(s: string) { exists i :: 0 <= i < |s| && 'a' <= s[i] <= 'z' }
  predicate HasDigit(s: string) { exists i :: 0 <= i < |s| && '0' <= s[i] <= '9' }

  /**
   * The email field's issues. The checks run in declaration order on the
   * text as typed, every failing check adds its issue, and lower-casing and
   * trimming come after them. The address-format check is a parameter.
   */
  function EmailIssues(email: string, isEmail: string -> bool): seq<string> {
    (if isEmail(email) then [] else [InvalidEmail]) + (if |email| > 255 then [EmailTooLong] else [])
  }

  /** The password field's issues, in the order of its five checks. */
  function PasswordIssues(password: string): seq<string> {
    (if |password| < 8 then [PasswordTooShort] else [])
    + (if |password| > 72 then [PasswordTooLong] else [])
    + (if HasUpper(password) then [] else [NeedsUppercase])
    + (if HasLower(password) then [] else [NeedsLowercase])
    + (if HasDigit(password) then [] else [NeedsDigit])
  }

  /** All issues of `authSchema.parse({ email, password })`: the email's, then the password's. */
  function AuthIssues(email: string, password: string, isEmail: string -> bool): seq<string> {
    EmailIssues(email, isEmail) + PasswordIssues(password)
  }

  /** The email the auth calls receive: lower-cased, then trimmed. */
  function NormalizeEmail(email: string): string {
    Trim(ToLower(email))
  }

  /** The password rule as the page states it. */
  predicate PasswordAccepted(password: string) {
    8 <= |password| <= 72 && HasUpper(password) && HasLower(password) && HasDigit(password)
  }

  /** A password passes exactly when it satisfies every rule; each failed rule contributes one issue. */
  lemma PasswordIssuesSpec(password: string)
    ensures PasswordIssues(password) == [] <==> PasswordAccepted(password)
    ensures PasswordTooShort in PasswordIssues(password) <==> |password| < 8
    ensures PasswordTooLong in PasswordIssues(password) <==> |password| > 72
    ensures NeedsUppercase in PasswordIssues(password) <==> !HasUpper(password)
    ensures NeedsLowercase in PasswordIssues(password) <==> !HasLower(password)
    ensures NeedsDigit in PasswordIssues(password) <==> !HasDigit(password)
    ensures |PasswordIssues(password)| <= 4
  {
  }

  /**
   * The message shown is the first issue: an email problem takes precedence
   * over any password problem, and the format problem over the length one.
   */
  lemma FirstIssueSpec(email: string, password: string, isEmail: string -> bool)
    ensures var issues := AuthIssues(email, password, isEmail);
      && (issues == [] <==> isEmail(email) && |email| <= 255 && PasswordAccepted(password))
      && (!isEmail(email) ==> issues[0] == InvalidEmail)
      && (isEmail(email) && |email| > 255 ==> issues[0] == EmailTooLong)
      && (isEmail(email) && |email| <= 255 && !PasswordAccepted(password) ==> issues[0] == PasswordIssues(password)[0])
      && (isEmail(email) && |email| <= 255 && |password| < 8 ==> issues[0] == PasswordTooShort)
  {
    PasswordIssuesSpec(password);
  }

  /** The normalised email has no upper-case ASCII letter, no surrounding whitespace, and is never longer. */
  lemma NormalizeEmailSpec(email: string)
    ensures var e := NormalizeEmail(email);
      && |e| <= |email|
      && (forall i :: 0 <= i < |e| ==> !('A' <= e[i] <= 'Z'))
      && Trim(e) == e
      && NormalizeEmail(e) == e
  {
    var e := NormalizeEmail(email);
    NormalizedChars(email);
    LowerFixed(e);
    TrimIdempotent(ToLower(email));
  }

  lemma NormalizedChars(email: string)
    ensures |NormalizeEmail(email)| <= |email|
    ensures forall i :: 0 <= i < |NormalizeEmail(email)| ==> !('A' <= NormalizeEmail(email)[i] <= 'Z')
  {
    var lower := ToLower(email);
    var e := NormalizeEmail(email);
    var k := TrimSlice(lower);
    forall i | 0 <= i < |e| ensures !('A' <= e[i] <= 'Z') {
      assert e[i] == lower[k + i];
      LowerCharNotUpper(email[k + i]);
    }
  }

  lemma LowerCharNotUpper(c: char)
    ensures !('A' <= LowerChar(c) <= 'Z')
  {
  }

  /** Lower-casing text without upper-case letters changes nothing. */
  lemma LowerFixed(e: string)
    requires forall i :: 0 <= i < |e| ==> !('A' <= e[i] <= 'Z')
    ensures ToLower(e) == e
  {
    var again := ToLower(e);
    assert forall i :: 0 <= i < |e| ==> again[i] == e[i];
  }

  /** Trimming keeps a contiguous slice of its input, starting at `k`. */
  lemma TrimSlice(s: string) returns (k: nat)
    ensures k + |Trim(s)| <= |s| && Trim(s) == s[k..k + |Trim(s)|]
  {
    var u := TrimStart(s);
    var e := Trim(s);
    k := |s| - |u|;
    assert e == u[..|e|];
  }

  datatype AuthRequest = SignIn(email: string, password: string) | SignUp(email: string, password: string)

  datatype AuthOutcome =
    | ValidationError(message: string)
    | AuthFailed(message: string)
    | SignedIn
    | AccountCreated

  class AuthPage {
    var isLogin: bool
    var email: string
    var password: string
    var loading: bool
    /** The route the page navigated to, if any. */
    var route: Option<string>
    /** The auth-service requests the page has made, oldest first. */
    var requests: seq<AuthRequest>

    constructor ()
      ensures isLogin && email == "" && password == "" && !loading && route.None? && requests == []
    {
      isLogin := true;
      email := "";
      password := "";
      loading := false;
      route := None;
      requests := [];
    }

    /** The mount effect: an existing session sends the visitor to the app. */
    method OnMount(hasSession: bool)
      modifies this`route
      ensures route == if hasSession then Some(AppRoute) else old(route)
    {
      if hasSession {
        route := Some(AppRoute);
      }
    }

    /** The "Sign up" / "Sign in" link. */
    method Toggle()
      modifies this`isLogin
      ensures isLogin == !old(isLogin)
    {
      isLogin := !isLogin;
    }

    /**
     * `handleAuth`. A schema failure shows its first issue and calls
     * nothing. Otherwise one request goes out with the normalised email;
     * `serviceError` is the service's answer (`None` for success). A login
     * navigates to the app, a signup only announces the verification mail.
     */
    method HandleAuth(isEmail: string -> bool, serviceError: Option<string>) returns (outcome: AuthOutcome)
      modifies this`loading, this`route, this`requests
      ensures !loading
      ensures var issues := AuthIssues(email, password, isEmail);
        issues != [] ==> outcome == ValidationError(issues[0]) && requests == old(requests) && route == old(route)
      ensures AuthIssues(email, password, isEmail) == [] ==>
        var request := if isLogin then SignIn(NormalizeEmail(email), password) else SignUp(NormalizeEmail(email), password);
        && requests == old(requests) + [request]
        && (serviceError.Some? ==> outcome == AuthFailed(serviceError.value) && route == old(route))
        && (serviceError.None? && isLogin ==> outcome == SignedIn && route == Some(AppRoute))
        && (serviceError.None? && !isLogin ==> outcome == AccountCreated && route == old(route))
    {
      loading := true;
      var issues := AuthIssues(email, password, isEmail);
      if issues != [] {
        outcome := ValidationError(issues[0]);
      } else {
        var normalized := NormalizeEmail(email);
        var request := if isLogin then SignIn(normalized, password) else SignUp(normalized, password);
        requests := requests + [request];
        if serviceError.Some? {
          outcome := AuthFailed(serviceError.value);
        } else if isLogin {
          route := Some(AppRoute);
          outcome := SignedIn;
        } else {
          outcome := AccountCreated;
        }
      }
      loading := false;
    }
  }
}
