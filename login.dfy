/**
 * The sign-in screen and the route guard (src/App.tsx): the password policy, how an auth error is
 * reduced to a code, the sign-in-then-sign-up flow of `submit`, and `AuthGate`.
 */
module Login {
  import opened Wrappers
  import opened JsText

  /** Whether some character of `s` lies in `lo..hi` (`/[lo-hi]/.test(s)`). */
  function HasCharIn(s: string, lo: char, hi: char): (b: bool)
    ensures b <==> exists i :: 0 <= i < |s| && lo <= s[i] <= hi
  {
    if s == [] then false
    else if lo <= s[0] <= hi then true
    else
      var b := HasCharIn(s[1..], lo, hi);
      assert b ==> exists i :: 0 <= i < |s| && lo <= s[i] <= hi by {
        if b {
          var j :| 0 <= j < |s[1..]| && lo <= s[1..][j] <= hi;
          assert lo <= s[j + 1] <= hi;
        }
      }
      b
  }

  /** The four checks of the policy, each computed on its own, and their conjunction. */
  datatype PwChecks = PwChecks(length: bool, upper: bool, lower: bool, digit: bool, valid: bool)

  /** `checkPassword(pw)`. */
  function CheckPassword(pw: string): (c: PwChecks)
    ensures c.length <==> |pw| >= 8
    ensures c.upper <==> exists i :: 0 <= i < |pw| && 'A' <= pw[i] <= 'Z'
    ensures c.lower <==> exists i :: 0 <= i < |pw| && 'a' <= pw[i] <= 'z'
    ensures c.digit <==> exists i :: 0 <= i < |pw| && '0' <= pw[i] <= '9'
    ensures c.valid <==> c.length && c.upper && c.lower && c.digit
  {
    var length := |pw| >= 8;
    var upper := HasCharIn(pw, 'A', 'Z');
    var lower := HasCharIn(pw, 'a', 'z');
    var digit := HasCharIn(pw, '0', '9');
    PwChecks(length, upper, lower, digit, length && upper && lower && digit)
  }

  /** A concrete password meeting the policy, and one missing only the digit. */
  lemma PolicyExamples()
    ensures CheckPassword("Passw0rd").valid
    ensures !CheckPassword("Password").valid && CheckPassword("Password").length
  {
    assert "Passw0rd"[0] == 'P' && "Passw0rd"[1] == 'a' && "Passw0rd"[5] == '0';
    var p := "Password";
    forall i | 0 <= i < |p| ensures !('0' <= p[i] <= '9') {
      assert p[i] in {'P', 'a', 's', 'w', 'o', 'r', 'd'};
    }
  }

  /**
   * A thrown value as `normalizeCode` inspects it: an object with optional `code` and `message` and
   * the text `String(err)` gives for it; a thrown string; or nothing (`undefined`/`null`).
   */
  datatype Thrown = ErrObj(code: Field<string>, message: Field<string>, text: string) | ErrText(s: string) | NoErr

  /** `err?.code || err?.message || err || ""` before lower-casing. */
  function RawCode(e: Thrown): string {
    match e
    case ErrObj(code, message, text) =>
      if code.Val? && code.value != "" then code.value
      else if message.Val? && message.value != "" then message.value
      else text
    case ErrText(s) => s
    case NoErr => ""
  }

  /** `normalizeCode(err)`. */
  function NormalizeCode(e: Thrown): string {
    ToLower(RawCode(e))
  }

  /** `err?.message || fallback`. */
  function MessageOr(e: Thrown, fallback: string): string {
    if e.ErrObj? && e.message.Val? && e.message.value != "" then e.message.value else fallback
  }

  predicate IsLowerAscii(t: string) {
    forall i :: 0 <= i < |t| ==> !('A' <= t[i] <= 'Z')
  }

  lemma LowerCharFixesLower(c: char)
    requires !('A' <= c <= 'Z')
    ensures LowerChar(c) == c
  {
  }

  /**
   * Lower-casing keeps every occurrence of a lower-case pattern, so a code is recognised whatever
   * the case it arrives in is, as long as it was there at all.
   */
  lemma {:induction false} ToLowerKeepsLowerPattern(s: string, t: string)
    requires IsLowerAscii(t) && Includes(s, t)
    ensures Includes(ToLower(s), t)
  {
    var i :| OccursAt(s, t, i);
    var ls := ToLower(s);
    forall k | 0 <= k < |t| ensures ls[i + k] == t[k] {
      assert s[i + k] == s[i..i + |t|][k];
      LowerCharFixesLower(t[k]);
    }
    assert ls[i..i + |t|] == t;
    assert OccursAt(ls, t, i);
  }

  /** Normalising twice changes nothing more. */
  lemma {:induction false} NormalizeCodeIdempotent(e: Thrown)
    ensures NormalizeCode(ErrText(NormalizeCode(e))) == NormalizeCode(e)
  {
    var r := NormalizeCode(e);
    var rr := ToLower(r);
    forall i | 0 <= i < |r| ensures rr[i] == r[i] {
      LowerCharFixesLower(r[i]);
    }
  }

  /** The `code` wins over the `message`, which wins over the value itself. */
  lemma NormalizeCodePriority(code: string, message: string, text: string)
    ensures code != "" ==> NormalizeCode(ErrObj(Val(code), Val(message), text)) == ToLower(code)
    ensures NormalizeCode(ErrObj(Val(""), Val(message), text)) == ToLower(if message != "" then message else text)
    ensures NormalizeCode(ErrObj(Undefined, Null, text)) == ToLower(text)
    ensures NormalizeCode(NoErr) == "" && NormalizeCode(ErrText("")) == ""
  {
  }

  /** The sign-in errors that may hide an account that does not exist yet. */
  predicate MaybeNoAccount(code: string) {
    Includes(code, "auth/user-not-found") || Includes(code, "auth/invalid-credential")
    || Includes(code, "auth/invalid-login-credentials")
  }

  /**
   * The error line under the form. Each fixed message is a constructor, so that the flow can be
   * reasoned about without spelling the texts out; `Shown` gives the text the screen displays.
   */
  datatype ErrorLine = Clear | PolicyHint | EmailInUse | TooWeak | BadEmail | Message(text: string)

  /** The text of the error line. */
  function Shown(e: ErrorLine): string {
    match e
    case Clear => ""
    case PolicyHint =>
      "If you’re creating a new account, your password must be at least 8 characters and include an uppercase letter, a lowercase letter, and a number. If you already have an account, use the correct password for that account or reset it."
    case EmailInUse => "That email already exists. The password may be incorrect — try again or reset it."
    case TooWeak => "Password is too weak. Please meet the password requirements below."
    case BadEmail => "That email looks invalid. Double-check the spelling."
    case Message(text) => text
  }

  /** The message for a failed sign-up. */
  function SignUpError(e2: Thrown): (line: ErrorLine)
    ensures line != Clear
  {
    var code2 := NormalizeCode(e2);
    if Includes(code2, "auth/email-already-in-use") then EmailInUse
    else if Includes(code2, "auth/weak-password") then TooWeak
    else if Includes(code2, "auth/invalid-email") then BadEmail
    else Message(MessageOr(e2, "Could not create account."))
  }

  /** The result of an auth call. */
  datatype AuthResult = AuthOk | AuthFailed(error: Thrown)

  /** An auth call the flow makes. */
  datatype AuthCall = SignIn(email: string, password: string) | SignUp(email: string, password: string)

  /** Where `submit` leaves the screen: the calls made, the error shown, busy, and the navigation. */
  datatype SubmitResult = SubmitResult(calls: seq<AuthCall>, err: ErrorLine, busy: bool, navigateTo: Option<string>)

  /** `location.state?.from?.pathname || "/docs"`. */
  function RedirectTarget(from: Option<string>): string {
    if from.Some? && from.value != "" then from.value else "/docs"
  }

  /** `submit()`, with the answers of the two auth calls as parameters (`signUp` is used only if asked). */
  function SubmitOutcome(email: string, password: string, signIn: AuthResult, signUp: AuthResult, from: Option<string>): SubmitResult {
    var e := Trim(email);
    if signIn.AuthOk? then SubmitResult([SignIn(e, password)], Clear, false, Some(RedirectTarget(from)))
    else FailureOutcome(e, password, signIn.error, signUp, from)
  }

  /** The `catch` of the sign-in call: the outcome once sign-in with `e` has failed with `error`. */
  function FailureOutcome(e: string, password: string, error: Thrown, signUp: AuthResult, from: Option<string>): SubmitResult {
    FailureCase(e, password, MaybeNoAccount(NormalizeCode(error)), CheckPassword(password).valid,
                MessageOr(error, "Authentication failed."), signUp, from)
  }

  /** `FailureOutcome` once the code has been classified, the policy checked and the message chosen. */
  function FailureCase(e: string, password: string, maybeNoAccount: bool, valid: bool, message: string,
                       signUp: AuthResult, from: Option<string>): SubmitResult {
    if !maybeNoAccount then
      SubmitResult([SignIn(e, password)], Message(message), false, None)
    else if !valid then
      SubmitResult([SignIn(e, password)], PolicyHint, false, None)
    else if signUp.AuthOk? then
      SubmitResult([SignIn(e, password), SignUp(e, password)], Clear, false, Some(RedirectTarget(from)))
    else
      SubmitResult([SignIn(e, password), SignUp(e, password)], SignUpError(signUp.error), false, None)
  }

  /**
   * The flow always starts with one sign-in using the trimmed email, always ends not busy, and
   * attempts a sign-up (with the same trimmed email) exactly when sign-in failed with an error
   * that may hide a missing account and the password meets the policy. It navigates exactly when
   * the last call it made succeeded, and it shows an error exactly when it does not navigate.
   */
  lemma SubmitFlow(email: string, password: string, signIn: AuthResult, signUp: AuthResult, from: Option<string>)
    ensures var r := SubmitOutcome(email, password, signIn, signUp, from);
      && !r.busy
      && 1 <= |r.calls| <= 2 && r.calls[0] == SignIn(Trim(email), password)
      && (|r.calls| == 2 <==>
            signIn.AuthFailed? && MaybeNoAccount(NormalizeCode(signIn.error)) && CheckPassword(password).valid)
      && (|r.calls| == 2 ==> r.calls[1] == SignUp(Trim(email), password))
      && (r.navigateTo.Some? <==> signIn.AuthOk? || (|r.calls| == 2 && signUp.AuthOk?))
      && (r.navigateTo.Some? <==> r.err == Clear)
      && (r.navigateTo.Some? ==> r.navigateTo == Some(RedirectTarget(from)))
  {
    if signIn.AuthFailed? {
      var error := signIn.error;
      FailureCaseFlow(Trim(email), password, MaybeNoAccount(NormalizeCode(error)), CheckPassword(password).valid,
                      MessageOr(error, "Authentication failed."), signUp, from);
    }
  }

  /** `SubmitFlow` after a failed sign-in, with the classification, the policy and the message as parameters. */
  lemma FailureCaseFlow(e: string, password: string, maybeNoAccount: bool, valid: bool, message: string,
                        signUp: AuthResult, from: Option<string>)
    ensures var r := FailureCase(e, password, maybeNoAccount, valid, message, signUp, from);
      && !r.busy
      && 1 <= |r.calls| <= 2 && r.calls[0] == SignIn(e, password)
      && (|r.calls| == 2 <==> maybeNoAccount && valid)
      && (|r.calls| == 2 ==> r.calls[1] == SignUp(e, password))
      && (r.navigateTo.Some? <==> |r.calls| == 2 && signUp.AuthOk?)
      && (r.navigateTo.Some? <==> r.err == Clear)
      && (r.navigateTo.Some? ==> r.navigateTo == Some(RedirectTarget(from)))
  {
    if maybeNoAccount && valid && signUp.AuthFailed? {
      assert SignUpError(signUp.error) != Clear;
    }
  }

  /** A sign-in failure that cannot hide a missing account shows its own message and stops. */
  lemma OtherSignInErrorStops(email: string, password: string, error: Thrown, signUp: AuthResult, from: Option<string>)
    requires !MaybeNoAccount(NormalizeCode(error))
    ensures SubmitOutcome(email, password, AuthFailed(error), signUp, from)
      == SubmitResult([SignIn(Trim(email), password)], Message(MessageOr(error, "Authentication failed.")), false, None)
  {
  }

  /** With a password outside the policy, no account is ever created; the policy is explained instead. */
  lemma WeakPasswordNeverSignsUp(email: string, password: string, error: Thrown, signUp: AuthResult, from: Option<string>)
    requires MaybeNoAccount(NormalizeCode(error)) && !CheckPassword(password).valid
    ensures SubmitOutcome(email, password, AuthFailed(error), signUp, from)
      == SubmitResult([SignIn(Trim(email), password)], PolicyHint, false, None)
  {
  }

  /** A Firebase error object whose code is "auth/user-not-found", in any case, leads to the sign-up path. */
  lemma UserNotFoundMayHideAccount(code: string, message: Field<string>, text: string)
    requires code != "" && Includes(code, "auth/user-not-found")
    ensures MaybeNoAccount(NormalizeCode(ErrObj(Val(code), message, text)))
  {
    assert IsLowerAscii("auth/user-not-found");
    ToLowerKeepsLowerPattern(code, "auth/user-not-found");
  }

  /** The sign-up failures that name a known code get their own message; the others fall back. */
  lemma SignUpErrorMessages(e2: Thrown)
    ensures var code2 := NormalizeCode(e2);
      && (SignUpError(e2) == EmailInUse <==> Includes(code2, "auth/email-already-in-use"))
      && (SignUpError(e2) == TooWeak <==>
            !Includes(code2, "auth/email-already-in-use") && Includes(code2, "auth/weak-password"))
      && (SignUpError(e2) == BadEmail <==>
            !Includes(code2, "auth/email-already-in-use") && !Includes(code2, "auth/weak-password")
            && Includes(code2, "auth/invalid-email"))
      && (SignUpError(e2).Message? ==> SignUpError(e2).text == MessageOr(e2, "Could not create account."))
  {
  }

  /**
   * The sign-in screen's state: the typed email and password, the error line, the busy flag, the
   * auth calls made so far and where the router was sent (`None` while on the screen).
   */
  class LoginPage {
    var email: string
    var password: string
    var err: ErrorLine
    var busy: bool
    var calls: seq<AuthCall>
    var navigatedTo: Option<string>

    constructor ()
      ensures email == "" && password == "" && err == Clear && !busy && calls == [] && navigatedTo == None
    {
      email, password, err, busy, calls, navigatedTo := "", "", Clear, false, [], None;
    }

    /**
     * `submit`: clears the error, goes busy, signs in with the trimmed email and, on a failure
     * that may hide a missing account, checks the policy and signs up, with early returns that
     * each set the error and clear busy. The answers of the two auth calls are parameters.
     */
    method Submit(signIn: AuthResult, signUp: AuthResult, from: Option<string>)
      modifies this`err, this`busy, this`calls, this`navigatedTo
      ensures var r := SubmitOutcome(old(email), old(password), signIn, signUp, from);
        && calls == old(calls) + r.calls && err == r.err && busy == r.busy
        && navigatedTo == (if r.navigateTo.Some? then r.navigateTo else old(navigatedTo))
    {
      err := Clear;
      busy := true;
      var emailTrimmed := Trim(email);
      ghost var r := SubmitOutcome(email, password, signIn, signUp, from);
      if signIn.AuthFailed? {
        assert r == FailureOutcome(emailTrimmed, password, signIn.error, signUp, from);
        OnSignInFailed(emailTrimmed, signIn.error, signUp, from);
        return;
      }
      assert r == SubmitResult([SignIn(emailTrimmed, password)], Clear, false, Some(RedirectTarget(from)));
      calls := calls + [SignIn(emailTrimmed, password)];
      navigatedTo := Some(RedirectTarget(from));
      busy := false;
    }

    /**
     * The rest of `submit` once the sign-in with `e` has failed with `error`: the `catch` block,
     * which either sets the error, clears busy and returns early, or signs up and falls through
     * to the navigation that ends the flow.
     */
    method OnSignInFailed(e: string, error: Thrown, signUp: AuthResult, from: Option<string>)
      modifies this`err, this`busy, this`calls, this`navigatedTo
      ensures var r := FailureOutcome(e, password, error, signUp, from);
        && calls == old(calls) + r.calls && err == (if r.err == Clear then old(err) else r.err) && busy == r.busy
        && navigatedTo == (if r.navigateTo.Some? then r.navigateTo else old(navigatedTo))
    {
      var maybeNoAccount := MaybeNoAccount(NormalizeCode(error));
      var valid := CheckPassword(password).valid;
      var message := MessageOr(error, "Authentication failed.");
      ghost var r := FailureCase(e, password, maybeNoAccount, valid, message, signUp, from);
      assert FailureOutcome(e, password, error, signUp, from) == r;
      ghost var before := calls;
      calls := calls + [SignIn(e, password)];
      if maybeNoAccount {
        if !valid {
          err := PolicyHint;
          busy := false;
          return;
        }
        calls := calls + [SignUp(e, password)];
        assert calls == before + [SignIn(e, password), SignUp(e, password)];
        if signUp.AuthFailed? {
          assert SignUpError(signUp.error) != Clear;
          err := SignUpError(signUp.error);
          busy := false;
          return;
        }
      } else {
        err := Message(message);
        busy := false;
        return;
      }
      navigatedTo := Some(RedirectTarget(from));
      busy := false;
    }
  }

  /** What the guard renders: "Loading…", a redirect to `/login` remembering where it came from, or the page. */
  datatype GateView = LoadingView | RedirectToLogin(from: string) | Children

  /** `AuthGate` on the page at `path`. */
  function AuthGate(ready: bool, signedIn: bool, path: string): GateView {
    if !ready then LoadingView else if !signedIn then RedirectToLogin(path) else Children
  }

  /**
   * The guard shows a protected page only to a signed-in user, and a signed-out visitor is sent
   * to `/login`, which after a successful sign-in (or sign-up) returns to the page they asked for;
   * a login reached without an origin goes to `/docs`.
   */
  lemma GateReturnsAfterLogin(ready: bool, signedIn: bool, path: string, email: string,
                            password: string, signIn: AuthResult, signUp: AuthResult)
    ensures var v := AuthGate(ready, signedIn, path);
      && (v == Children <==> ready && signedIn)
      && (v == LoadingView <==> !ready)
      && (v.RedirectToLogin? <==> ready && !signedIn)
      && (v.RedirectToLogin? ==>
            var r := SubmitOutcome(email, password, signIn, signUp, Some(v.from));
            && (r.navigateTo.Some? <==> r.err == Clear)
            && (r.navigateTo.Some? ==> r.navigateTo == Some(if path != "" then path else "/docs")))
    ensures SubmitOutcome(email, password, signIn, signUp, None).navigateTo.Some? ==>
      SubmitOutcome(email, password, signIn, signUp, None).navigateTo == Some("/docs")
  {
    SubmitFlow(email, password, signIn, signUp, None);
    if ready && !signedIn {
      SubmitFlow(email, password, signIn, signUp, Some(path));
    }
  }
}
