/** The reset-password page: the verification of the link's token when the page opens, the
    password policy, and the submission of the new password. */
module ResetPassword {
  import opened Js
  import opened Web

  const NoToken := "No reset token provided"
  const InvalidToken := "Invalid or expired reset token"
  const VerifyFailed := "Failed to verify reset token"
  const Mismatch := "Passwords do not match"
  const Weak := "Password does not meet requirements"
  const ResetFailed := "Password reset failed"
  const ResetError := "Failed to reset password"

  predicate IsUpper(c: char) { 'A' <= c <= 'Z' }
  predicate IsLower(c: char) { 'a' <= c <= 'z' }
  predicate IsAsciiDigit(c: char) { '0' <= c <= '9' }

  /** The four indicators shown under the password field. */
  datatype Strength = Strength(length: bool, uppercase: bool, lowercase: bool, number: bool)
  {
    /** `Object.values(passwordStrength).every(v => v)`. */
    predicate AllMet() { length && uppercase && lowercase && number }
  }

  /** The indicators for a password: at least eight characters, and at least one ASCII
      upper-case letter, lower-case letter and digit (`/[A-Z]/`, `/[a-z]/`, `/\d/`). */
  function StrengthOf(pw: string): (st: Strength)
    ensures st.length <==> |pw| >= 8
    ensures st.uppercase <==> exists i :: 0 <= i < |pw| && IsUpper(pw[i])
    ensures st.lowercase <==> exists i :: 0 <= i < |pw| && IsLower(pw[i])
    ensures st.number <==> exists i :: 0 <= i < |pw| && IsAsciiDigit(pw[i])
  {
    Strength(|pw| >= 8,
             exists i :: 0 <= i < |pw| && IsUpper(pw[i]),
             exists i :: 0 <= i < |pw| && IsLower(pw[i]),
             exists i :: 0 <= i < |pw| && IsAsciiDigit(pw[i]))
  }

  /** Typing more characters never switches an indicator off. */
  lemma StrengthGrows(pw: string, more: string)
    ensures var a := StrengthOf(pw); var b := StrengthOf(pw + more);
            (a.length ==> b.length) && (a.uppercase ==> b.uppercase)
            && (a.lowercase ==> b.lowercase) && (a.number ==> b.number)
  {
    var s := pw + more;
    assert forall i :: 0 <= i < |pw| ==> s[i] == pw[i];
  }

  /** A few passwords against the policy. */
  lemma PolicyExamples()
    ensures StrengthOf("Welkom01").AllMet()
    ensures !StrengthOf("welkom01").AllMet()
    ensures !StrengthOf("Welkom1").AllMet()
    ensures !StrengthOf("WelkomWelkom").AllMet()
  {
    var p := "Welkom01";
    assert IsUpper(p[0]) && IsLower(p[1]) && IsAsciiDigit(p[6]);
    var q := "welkom01";
    assert forall i :: 0 <= i < |q| ==> !IsUpper(q[i]);
    var r := "WelkomWelkom";
    assert forall i :: 0 <= i < |r| ==> !IsAsciiDigit(r[i]);
  }

  /** What the token check leaves the page with. */
  datatype TokenStatus = TokenValid | TokenRejected(message: Json)

  /** The payload of a response that arrived. */
  function BodyOf(r: Response<Json>): Body<Json>
    requires !r.NetworkError?
  {
    if r.Success? then r.body else r.errorBody
  }

  /** The verification made when the page opens: no token at all (or an empty one) is rejected
      without a request; otherwise the answer's `valid` decides, whatever its status, and a
      rejection shows the answer's `reason` when truthy. A request or payload that fails,
      or a `null` payload, gives the generic failure. */
  function TokenCheck(token: Option<string>, verify: string -> Response<Json>): (r: TokenStatus)
    ensures token.None? || token.value == "" ==> r == TokenRejected(JStr(NoToken))
    ensures r.TokenValid? <==>
              token.Some? && token.value != "" && !verify(token.value).NetworkError?
              && BodyOf(verify(token.value)).Parsed? && BodyOf(verify(token.value)).value != JNull
              && TruthyOpt(Member(BodyOf(verify(token.value)).value, "valid"))
    ensures r.TokenRejected? ==> Truthy(r.message)
    ensures token.Some? && token.value != "" ==>
              var response := verify(token.value);
              && (response.NetworkError? || BodyOf(response).Unparsable? || BodyOf(response) == Parsed(JNull) ==>
                    r == TokenRejected(JStr(VerifyFailed)))
              && (!response.NetworkError? && BodyOf(response).Parsed? && BodyOf(response).value != JNull ==>
                    var reason := Member(BodyOf(response).value, "reason");
                    r.TokenRejected? ==> r.message == if TruthyOpt(reason) then reason.value else JStr(InvalidToken))
  {
    if token.None? || token.value == "" then TokenRejected(JStr(NoToken))
    else
      var response := verify(token.value);
      if response.NetworkError? then TokenRejected(JStr(VerifyFailed))
      else
        match BodyOf(response)
        case Unparsable(_) => TokenRejected(JStr(VerifyFailed))
        case Parsed(data) =>
          if data == JNull then TokenRejected(JStr(VerifyFailed))
          else if TruthyOpt(Member(data, "valid")) then TokenValid
          else TokenRejected(Or(Member(data, "reason"), Some(JStr(InvalidToken))).value)
  }

  /** The verification reads the payload and ignores the status: an error status with
      `{"valid": true}` still opens the form, and a success status without it does not. */
  lemma TokenCheckIgnoresStatus(token: string, ok: int, failed: int, body: Body<Json>, verify: string -> Response<Json>)
    requires token != ""
    requires verify(token) == Success(ok, body)
    ensures forall other: string -> Response<Json> :: other(token) == Failure(failed, body) ==>
              TokenCheck(Some(token), other) == TokenCheck(Some(token), verify)
  {
  }

  /** The screen the page renders, in the order the page tests its state. */
  datatype Screen = Verifying | InvalidLink(message: Json) | Done | Form

  /** The page's state. */
  class ResetPasswordPage {
    const token: Option<string>
    var newPassword: string
    var confirmPassword: string
    var strength: Strength
    var error: string
    var success: bool
    var isLoading: bool
    var isVerifying: bool
    var tokenValid: bool
    var tokenError: Json

    /** The indicators are recomputed from the password after every change. */
    predicate Valid()
      reads this
    {
      strength == StrengthOf(newPassword)
    }

    constructor(token: Option<string>)
      ensures this.token == token && Valid()
      ensures newPassword == "" && confirmPassword == "" && error == ""
      ensures !success && !isLoading && isVerifying && !tokenValid && tokenError == JStr("")
    {
      this.token := token;
      newPassword := "";
      confirmPassword := "";
      strength := StrengthOf("");
      error := "";
      success := false;
      isLoading := false;
      isVerifying := true;
      tokenValid := false;
      tokenError := JStr("");
    }

    /** Typing in the new-password field; the indicators follow. */
    method SetNewPassword(pw: string)
      modifies this`newPassword, this`strength
      ensures newPassword == pw && Valid()
    {
      newPassword := pw;
      strength := StrengthOf(pw);
    }

    method SetConfirmPassword(pw: string)
      modifies this`confirmPassword
      ensures confirmPassword == pw
    {
      confirmPassword := pw;
    }

    /** The verification run when the page opens; afterwards the page no longer shows the
        spinner and the token is valid exactly when `TokenCheck` accepts it. */
    method VerifyToken(verify: string -> Response<Json>)
      requires isVerifying && !tokenValid
      modifies this`tokenValid, this`tokenError, this`isVerifying
      ensures !isVerifying
      ensures tokenValid <==> TokenCheck(token, verify).TokenValid?
      ensures !tokenValid ==> tokenError == TokenCheck(token, verify).message
      ensures tokenValid ==> tokenError == old(tokenError)
      ensures CurrentScreen() ==
                if TokenCheck(token, verify).TokenValid? then (if success then Done else Form)
                else InvalidLink(TokenCheck(token, verify).message)
    {
      if token.None? || token.value == "" {
        tokenError := JStr(NoToken);
        isVerifying := false;
        return;
      }
      var response := verify(token.value);
      if response.NetworkError? {
        tokenError := JStr(VerifyFailed);
      } else {
        var body := if response.Success? then response.body else response.errorBody;
        match body {
          case Unparsable(_) =>
            tokenError := JStr(VerifyFailed);
          case Parsed(data) =>
            if data == JNull {
              tokenError := JStr(VerifyFailed);
            } else if TruthyOpt(Member(data, "valid")) {
              tokenValid := true;
            } else {
              tokenError := Or(Member(data, "reason"), Some(JStr(InvalidToken))).value;
            }
        }
      }
      isVerifying := false;
    }

    /** The mismatch hint under the confirmation field. */
    predicate MismatchHint()
      reads this
      ensures MismatchHint() ==> newPassword != confirmPassword
      ensures confirmPassword != "" && !MismatchHint() ==> newPassword == confirmPassword
    {
      confirmPassword != "" && newPassword != confirmPassword
    }

    /** Submitting the form. The request is sent only when both fields agree and every
        indicator is met; the mismatch is reported first. After the request the page shows
        success and heads for the login page, or shows the server's `detail` (or a fixed
        text). The form is only on screen, with its button enabled, for a verified token
        before success and while no request is pending. Returns the payload sent, if any. */
    method HandleSubmit(b: Browser, reset: Json -> Response<Json>) returns (sent: Option<Json>)
      requires Valid() && CurrentScreen() == Form && !isLoading
      modifies this`error, this`success, this`isLoading, b`navigations
      ensures !isLoading && Valid()
      ensures sent.Some? <==> newPassword == confirmPassword && StrengthOf(newPassword).AllMet()
      ensures newPassword != confirmPassword ==> error == Mismatch
      ensures newPassword == confirmPassword && !StrengthOf(newPassword).AllMet() ==> error == Weak
      ensures sent.Some? ==> sent.value == ResetRequest(token, newPassword)
      ensures sent.Some? ==>
                (success <==> ResetAccepted(reset(sent.value)))
                && (success ==> error == "" && b.navigations == old(b.navigations) + ["/login"])
                && (!success ==> error == ResetMessage(reset(sent.value)) && b.navigations == old(b.navigations))
      ensures sent.None? ==> success == old(success) && b.navigations == old(b.navigations)
      ensures MismatchHint() ==> sent.None? && error == Mismatch
      ensures CurrentScreen() == if success then Done else Form
    {
      error := "";
      sent := None;
      if newPassword != confirmPassword {
        error := Mismatch;
        return;
      }
      if !strength.AllMet() {
        error := Weak;
        return;
      }
      isLoading := true;
      var request := ResetRequest(token, newPassword);
      sent := Some(request);
      var response := reset(request);
      if ResetAccepted(response) {
        success := true;
        b.Navigate("/login");
      } else {
        error := ResetMessage(response);
      }
      isLoading := false;
    }

    /** The screen shown: the spinner while verifying, then the invalid-link card, then
        the success card, and the form only for a valid token. */
    function CurrentScreen(): (s: Screen)
      reads this
      ensures s == Verifying <==> isVerifying
      ensures s.InvalidLink? <==> !isVerifying && !tokenValid
      ensures s == Done <==> !isVerifying && tokenValid && success
      ensures s == Form <==> !isVerifying && tokenValid && !success
      ensures s.InvalidLink? ==> s.message == tokenError
    {
      if isVerifying then Verifying
      else if !tokenValid then InvalidLink(tokenError)
      else if success then Done
      else Form
    }
  }

  /** `{ token, new_password }`; a missing token is sent as `null`. */
  function ResetRequest(token: Option<string>, pw: string): Json {
    JObj([("token", if token.Some? then JStr(token.value) else JNull), ("new_password", JStr(pw))])
  }

  /** The reset succeeded: a success status and a payload that parses. */
  predicate ResetAccepted(r: Response<Json>) {
    r.Success? && r.body.Parsed?
  }

  /** The message shown when the reset did not succeed: the failed request's or the
      unreadable payload's own message, or the payload's `detail`, each falling back to a
      fixed text. */
  function ResetMessage(r: Response<Json>): (m: string)
    ensures m != ""
    ensures r.NetworkError? ==> m == if r.error.message != "" then r.error.message else ResetError
    ensures r.Success? && r.body.Unparsable? ==>
              m == if r.body.error.message != "" then r.body.error.message else ResetError
    ensures r.Failure? && r.errorBody.Unparsable? ==>
              m == if r.errorBody.error.message != "" then r.errorBody.error.message else ResetError
    ensures r.Failure? && r.errorBody == Parsed(JNull) ==> m == NullRead("detail").message
    ensures r.Failure? && r.errorBody.Parsed? && r.errorBody.value != JNull ==>
              var detail := Member(r.errorBody.value, "detail");
              (!TruthyOpt(detail) ==> m == ResetFailed)
              && (TruthyOpt(detail) && ToJsString(detail.value) != "" ==> m == ToJsString(detail.value))
              && (TruthyOpt(detail) && ToJsString(detail.value) == "" ==> m == ResetError)
  {
    match r
    case NetworkError(e) => if e.message != "" then e.message else ResetError
    case Success(_, Unparsable(e)) => if e.message != "" then e.message else ResetError
    case Failure(_, Unparsable(e)) => if e.message != "" then e.message else ResetError
    case Failure(_, Parsed(data)) =>
      var thrown :=
        if data == JNull then NullRead("detail").message
        else ToJsString(Or(Member(data, "detail"), Some(JStr(ResetFailed))).value);
      if thrown != "" then thrown else ResetError
    case Success(_, Parsed(_)) => ResetError
  }

  /** A rejected reset with a non-empty string `detail` shows it, and one without a
      truthy `detail` shows the fixed text. */
  lemma ResetDetailShown(status: int, fields: seq<(string, Json)>)
    ensures var detail := Lookup(fields, "detail");
            (detail.Some? && detail.value.JStr? && detail.value.s != "" ==>
               ResetMessage(Failure(status, Parsed(JObj(fields)))) == detail.value.s)
            && (!TruthyOpt(detail) ==> ResetMessage(Failure(status, Parsed(JObj(fields)))) == ResetFailed)
  {
  }
}
