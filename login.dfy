/** The login page: one or two sign-in requests, the error message shown when sign-in
    fails, and on success the session written to local storage and the redirect. */
module Login {
  import opened Text
  import opened Js
  import opened Web
  import opened Guards
  import opened Routing

  const DefaultFailure := "Login failed. Please check your credentials."
  const IncorrectCredentials := "Incorrect email or password. Please try again."
  const Unexpected := "An unexpected error occurred. Please try again."

  /** The message used when the error body cannot be read. */
  function StatusFailure(status: int): string {
    "Login failed (Status: " + IntToDecimal(status) + "). Please check your credentials."
  }

  /** The payload of a sign-in request, naming the e-mail address `username` or `email`. */
  function SignInRequest(field: string, email: string, password: string): Json {
    JObj([(field, JStr(email)), ("password", JStr(password))])
  }

  /** A rejected first attempt with status 422 is retried with the `email` field. */
  predicate Retries(first: Response<Json>) {
    first.Failure? && first.status == 422
  }

  /** The response the page goes on with: the first one, or the retry's. */
  function FinalResponse(email: string, password: string, server: Json -> Response<Json>): (r: Response<Json>)
    ensures !Retries(server(SignInRequest("username", email, password))) ==> r == server(SignInRequest("username", email, password))
    ensures Retries(server(SignInRequest("username", email, password))) ==> r == server(SignInRequest("email", email, password))
  {
    var first := server(SignInRequest("username", email, password));
    if Retries(first) then server(SignInRequest("email", email, password)) else first
  }

  /** One entry of a validation-error list: its `msg` when truthy, otherwise the entry
      as JSON. */
  function EntryText(entry: Json): string
    requires entry != JNull
  {
    var msg := Member(entry, "msg");
    if TruthyOpt(msg) then ToJsString(msg.value) else Stringify(entry)
  }

  /** The texts of a validation-error list, entry by entry. */
  function EntryTexts(items: seq<Json>): (texts: seq<string>)
    requires JNull !in items
    ensures |texts| == |items|
    ensures forall i :: 0 <= i < |items| ==> texts[i] == EntryText(items[i])
  {
    seq(|items|, i requires 0 <= i < |items| => EntryText(items[i]))
  }

  /** The error message picked from a parsed error body, before the 401/422 rewrite;
      `None` when picking throws (a `null` body, or a `null` entry in a `detail` list).
      The first that applies wins: the body itself when it is a string; a string
      `detail`; a `detail` list joined; a `detail` object's truthy `message`, else that
      object as JSON; a truthy `message`; a truthy `error`; the default text. */
  function PickMessage(v: Json): (r: Option<Json>)
    ensures v.JStr? ==> r == Some(v)
    ensures v == JNull ==> r == None
    ensures r.Some? ==> Truthy(r.value) || r.value.JStr?
    ensures !v.JStr? && v != JNull ==>
              var detail := Member(v, "detail");
              var message := Member(v, "message");
              var error := Member(v, "error");
              (detail.Some? && detail.value.JStr? ==> r == detail)
              && (detail.Some? && detail.value.JArr? ==>
                    (r.None? <==> JNull in detail.value.items)
                    && (r.Some? ==> r == Some(JStr(Join(EntryTexts(detail.value.items), ", ")))))
              && (detail.Some? && detail.value.JObj? ==>
                    r == if TruthyOpt(Member(detail.value, "message")) then Member(detail.value, "message")
                         else Some(JStr(Stringify(detail.value))))
              && (detail.None? || !(detail.value.JStr? || detail.value.JArr? || detail.value.JObj?) ==>
                    (TruthyOpt(message) ==> r == message)
                    && (!TruthyOpt(message) && TruthyOpt(error) ==> r == error)
                    && (!TruthyOpt(message) && !TruthyOpt(error) ==> r == Some(JStr(DefaultFailure))))
  {
    if v.JStr? then Some(v)
    else if v == JNull then None
    else
      match Member(v, "detail")
      case Some(JStr(s)) => Some(JStr(s))
      case Some(JArr(items)) =>
        if JNull in items then None
        else Some(JStr(Join(EntryTexts(items), ", ")))
      case Some(JObj(f)) =>
        var m := Member(JObj(f), "message");
        if TruthyOpt(m) then m else Some(JStr(Stringify(JObj(f))))
      case _ =>
        var m := Member(v, "message");
        var e := Member(v, "error");
        if TruthyOpt(m) then m else if TruthyOpt(e) then e else Some(JStr(DefaultFailure))
  }

  /** `message.includes('credentials') || message.includes('password')`: a substring test
      on a string, an element test on an array; on any other value `includes` is not a
      function and the call throws (`None`). */
  function MentionsCredentials(m: Json): (r: Option<bool>)
    ensures r.None? <==> !m.JStr? && !m.JArr?
    ensures m.JStr? ==> r == Some(Contains(m.s, "credentials") || Contains(m.s, "password"))
    ensures m.JArr? ==> r == Some(JStr("credentials") in m.items || JStr("password") in m.items)
  {
    match m
    case JStr(s) => Some(Contains(s, "credentials") || Contains(s, "password"))
    case JArr(items) => Some(JStr("credentials") in items || JStr("password") in items)
    case _ => None
  }

  /** The message of the `Error` thrown for a rejected sign-in. */
  function FailureMessage(status: int, body: Body<Json>): (r: string)
    ensures body.Unparsable? || PickMessage(body.value).None? ==> r == StatusFailure(status)
    ensures status != 401 && status != 422 && body.Parsed? && PickMessage(body.value).Some? ==>
              r == ToJsString(PickMessage(body.value).value)
    ensures (status == 401 || status == 422) && body.Parsed? && PickMessage(body.value).Some? ==>
              var m := PickMessage(body.value).value;
              (MentionsCredentials(m) == Some(false) ==> r == IncorrectCredentials)
              && (MentionsCredentials(m) == Some(true) ==> r == ToJsString(m))
              && (MentionsCredentials(m).None? ==> r == StatusFailure(status))
  {
    match body
    case Unparsable(_) => StatusFailure(status)
    case Parsed(v) =>
      match PickMessage(v)
      case None => StatusFailure(status)
      case Some(m) =>
        if status == 401 || status == 422 then
          match MentionsCredentials(m)
          case None => StatusFailure(status)
          case Some(true) => ToJsString(m)
          case Some(false) => IncorrectCredentials
        else ToJsString(m)
  }

  /** `err.message || 'An unexpected error ...'`. */
  function Shown(message: string): (r: string)
    ensures r != ""
    ensures message != "" ==> r == message
    ensures message == "" ==> r == Unexpected
  {
    if message == "" then Unexpected else message
  }

  /** The user record kept after sign-in: the response's `user` when truthy, otherwise one
      built from its flat `email`, `role` and `id || user_id` (properties that are
      `undefined` are not written). */
  function NormalisedUser(data: Json): (user: Json)
    requires data != JNull
    ensures user != JNull && Truthy(user)
    ensures TruthyOpt(Member(data, "user")) ==> Some(user) == Member(data, "user")
    ensures !TruthyOpt(Member(data, "user")) ==>
              user == FlatUser(Member(data, "email"), Member(data, "role"), Or(Member(data, "id"), Member(data, "user_id")))
  {
    if TruthyOpt(Member(data, "user")) then Member(data, "user").value
    else FlatUser(Member(data, "email"), Member(data, "role"), Or(Member(data, "id"), Member(data, "user_id")))
  }

  /** The object literal `{ email, role, id }`; a property whose value is `undefined` is
      not written by `JSON.stringify` and reads back as `undefined`. */
  function FlatUser(email: Option<Json>, role: Option<Json>, id: Option<Json>): (user: Json)
    ensures user.JObj?
    ensures Member(user, "email") == email && Member(user, "role") == role && Member(user, "id") == id
  {
    var tail := Defined("id", id);
    var mid := Defined("role", role) + tail;
    LookupDefined("id", id, [], "id");
    LookupDefined("role", role, tail, "role");
    LookupDefined("role", role, tail, "id");
    LookupDefined("email", email, mid, "email");
    LookupDefined("email", email, mid, "role");
    LookupDefined("email", email, mid, "id");
    assert tail + [] == tail;
    JObj(Defined("email", email) + mid)
  }

  /** An object literal's property, or none when its value is `undefined`. */
  function Defined(key: string, v: Option<Json>): seq<(string, Json)> {
    if v.Some? then [(key, v.value)] else []
  }

  /** Looking up a key in properties that start with a possibly omitted one. */
  lemma LookupDefined(key: string, v: Option<Json>, rest: seq<(string, Json)>, k: string)
    ensures Lookup(Defined(key, v) + rest, k) == if k == key && v.Some? then v else Lookup(rest, k)
  {
    if v.Some? {
      assert (Defined(key, v) + rest)[1..] == rest;
    } else {
      assert Defined(key, v) + rest == rest;
    }
  }

  /** The role-based redirect. */
  function LoginTarget(user: Json): (target: string)
    requires user != JNull
    ensures target == "/admin" <==> Member(user, "role") == Some(JStr("admin"))
    ensures target == "/admin" || target == "/dashboard"
  {
    if Member(user, "role") == Some(JStr("admin")) then "/admin" else "/dashboard"
  }

  /** What a sign-in ends with: the stored token, the stored user text and the redirect,
      or the error shown on the form. */
  datatype LoginResult = SignedInAs(token: string, userText: string, target: string) | Rejected(error: string)

  function Outcome(final: Response<Json>): (r: LoginResult)
    ensures r.Rejected? ==> r.error != ""
    ensures final.Failure? ==> r == Rejected(Shown(FailureMessage(final.status, final.errorBody)))
    ensures r.SignedInAs? <==> final.Success? && final.body.Parsed? && final.body.value != JNull
    ensures final.NetworkError? ==> r == Rejected(Shown(final.error.message))
    ensures final.Success? && final.body.Unparsable? ==> r == Rejected(Shown(final.body.error.message))
    ensures final.Success? && final.body == Parsed(JNull) ==> r == Rejected(Shown(NullRead("user").message))
    ensures r.SignedInAs? ==>
              var user := NormalisedUser(final.body.value);
              && r.token == StoredText(Member(final.body.value, "access_token"))
              && r.userText == Stringify(user)
              && (r.target == "/admin" <==> Member(user, "role") == Some(JStr("admin")))
              && (r.target == "/admin" || r.target == "/dashboard")
  {
    match final
    case NetworkError(e) => Rejected(Shown(e.message))
    case Failure(status, body) => Rejected(Shown(FailureMessage(status, body)))
    case Success(_, Unparsable(e)) => Rejected(Shown(e.message))
    case Success(_, Parsed(data)) =>
      if data == JNull then Rejected(Shown(NullRead("user").message))
      else
        var user := NormalisedUser(data);
        SignedInAs(StoredText(Member(data, "access_token")), Stringify(user), LoginTarget(user))
  }

  /** After a rejected 401 or 422 the form always speaks of credentials or the password:
      the server's message when it mentions one of them, the fixed rewrite otherwise, and
      the status message when the body cannot be read. */
  lemma AuthFailureMentionsCredentials(status: int, body: Body<Json>)
    requires status == 401 || status == 422
    ensures var shown := Shown(FailureMessage(status, body));
            Contains(shown, "credentials") || Contains(shown, "password")
  {
    FailureMessageMentionsCredentials(status, body);
  }

  /** The message of the thrown error, case by case. */
  lemma FailureMessageMentionsCredentials(status: int, body: Body<Json>)
    requires status == 401 || status == 422
    ensures Contains(FailureMessage(status, body), "credentials") || Contains(FailureMessage(status, body), "password")
  {
    match body
    case Unparsable(_) =>
      StatusFailureMentionsCredentials(status);
    case Parsed(v) =>
      match PickMessage(v)
      case None =>
        StatusFailureMentionsCredentials(status);
      case Some(m) =>
        match MentionsCredentials(m)
        case None =>
          assert FailureMessage(status, body) == StatusFailure(status);
          StatusFailureMentionsCredentials(status);
        case Some(true) =>
          assert FailureMessage(status, body) == ToJsString(m);
          KeptMessageMentionsCredentials(m);
        case Some(false) =>
          assert FailureMessage(status, body) == IncorrectCredentials;
          IncorrectCredentialsMentionsPassword();
  }

  lemma IncorrectCredentialsMentionsPassword()
    ensures Contains(IncorrectCredentials, "password")
  {
    ContainsInside("Incorrect email or ", "password", ". Please try again.");
    assert IncorrectCredentials == "Incorrect email or " + "password" + ". Please try again.";
  }

  lemma StatusFailureMentionsCredentials(status: int)
    ensures Contains(StatusFailure(status), "credentials")
  {
    var a := "Login failed (Status: " + IntToDecimal(status) + "). Please check your ";
    ContainsInside(a, "credentials", ".");
    assert StatusFailure(status) == a + "credentials" + ".";
  }

  /** A kept message that passed the `includes` test shows the word it contains. */
  lemma KeptMessageMentionsCredentials(m: Json)
    requires MentionsCredentials(m) == Some(true)
    ensures Contains(ToJsString(m), "credentials") || Contains(ToJsString(m), "password")
  {
    if m.JArr? {
      var items := m.items;
      var parts := seq(|items|, i requires 0 <= i < |items| => if items[i] == JNull then "" else ToJsString(items[i]));
      assert ToJsString(m) == Join(parts, ",");
      var k :| 0 <= k < |items| && (items[k] == JStr("credentials") || items[k] == JStr("password"));
      JoinContainsPart(parts, ",", k);
    }
  }

  /** Outside 401 and 422, a non-empty string `detail` is shown exactly as the server sent it. */
  lemma DetailShownVerbatim(status: int, fields: seq<(string, Json)>, detail: string)
    requires status != 401 && status != 422
    requires Lookup(fields, "detail") == Some(JStr(detail)) && detail != ""
    ensures Shown(FailureMessage(status, Parsed(JObj(fields)))) == detail
  {
  }

  /** A FastAPI validation-error list is shown as its entries' `msg` texts joined by ", ". */
  lemma ValidationErrorsJoined(status: int, items: seq<Json>)
    requires status != 401 && status != 422
    requires forall i :: 0 <= i < |items| ==>
               (items[i].JObj? && Member(items[i], "msg").Some?
                && Member(items[i], "msg").value.JStr? && Member(items[i], "msg").value.s != "")
    ensures FailureMessage(status, Parsed(JObj([("detail", JArr(items))])))
            == Join(seq(|items|, i requires 0 <= i < |items| => Member(items[i], "msg").value.s), ", ")
  {
    assert JNull !in items;
    assert seq(|items|, i requires 0 <= i < |items| => EntryText(items[i]))
        == seq(|items|, i requires 0 <= i < |items| => Member(items[i], "msg").value.s);
  }

  /** A successful sign-in stores a session the guards read back as it was meant: with a
      `JSON.parse` that inverts `JSON.stringify` on the stored user and a non-empty token,
      `AdminRoute` lets an admin through and sends everyone else to the dashboard, which
      is exactly where the page redirects them. As written the dashboard redirect of a
      non-admin never settles; with the corrected route table both redirects settle on
      the intended page. */
  lemma SignInMatchesGuards(st: Storage, data: Json, parse: string -> Option<Json>, fuel: nat)
    requires data != JNull
    requires StoredText(Member(data, "access_token")) != ""
    requires parse(Stringify(NormalisedUser(data))) == Some(NormalisedUser(data))
    ensures var user := NormalisedUser(data);
            var after := st["token" := StoredText(Member(data, "access_token"))]["user" := Stringify(user)];
            (AdminRoute(after, parse) == Render <==> LoginTarget(user) == "/admin")
            && (AdminRoute(after, parse) == ToDashboard <==> LoginTarget(user) == "/dashboard")
            && (LoginTarget(user) == "/dashboard" ==> Run("/dashboard", after, parse, fuel) == None)
            && FixedRun(LoginTarget(user), after, parse, 4)
               == Some(if LoginTarget(user) == "/admin" then AdminScreen else UserDashboardScreen)
  {
    var user := NormalisedUser(data);
    var after := st["token" := StoredText(Member(data, "access_token"))]["user" := Stringify(user)];
    StringifyNonEmpty(user);
    assert SignedIn(after);
    assert ReadableUser(after, parse);
    FixedRoutesSettle(LoginTarget(user), after, parse);
    if LoginTarget(user) == "/dashboard" {
      NonAdminNeverSettles(after, parse, fuel);
    }
  }

  /** `JSON.stringify` never produces the empty string. */
  lemma StringifyNonEmpty(v: Json)
    ensures Stringify(v) != ""
  {
    if v.JNum? {
      assert IntToDecimal(v.n) != "";
    }
  }

  /** The login form's state. */
  class LoginPage {
    var email: string
    var password: string
    var error: string
    var isLoading: bool

    constructor()
      ensures email == "" && password == "" && error == "" && !isLoading
    {
      email := "";
      password := "";
      error := "";
      isLoading := false;
    }

    /** Submitting the form: sends the sign-in request (and the retry), then either stores
        the session and redirects, or shows the error and leaves storage and location as
        they were. Returns the request payloads sent, in order. */
    method HandleSubmit(b: Browser, server: Json -> Response<Json>) returns (sent: seq<Json>)
      modifies this`error, this`isLoading, b`storage, b`navigations
      ensures !isLoading
      ensures 1 <= |sent| <= 2 && sent[0] == SignInRequest("username", email, password)
      ensures |sent| == 2 <==> Retries(server(sent[0]))
      ensures |sent| == 2 ==> sent[1] == SignInRequest("email", email, password)
      ensures Outcome(server(sent[|sent| - 1])) == Outcome(FinalResponse(email, password, server))
      ensures match Outcome(FinalResponse(email, password, server))
              case SignedInAs(token, userText, target) =>
                error == "" && b.storage == old(b.storage)["token" := token]["user" := userText]
                && b.navigations == old(b.navigations) + [target]
              case Rejected(message) =>
                error == message && b.storage == old(b.storage) && b.navigations == old(b.navigations)
    {
      error := "";
      isLoading := true;
      sent := [SignInRequest("username", email, password)];
      var response := server(sent[0]);
      if !response.Success? && !response.NetworkError? && response.status == 422 {
        sent := sent + [SignInRequest("email", email, password)];
        response := server(sent[1]);
      }
      match response {
        case NetworkError(e) =>
          error := Shown(e.message);
        case Failure(status, body) =>
          error := Shown(FailureMessage(status, body));
        case Success(_, Unparsable(e)) =>
          error := Shown(e.message);
        case Success(_, Parsed(data)) =>
          if data == JNull {
            error := Shown(NullRead("user").message);
          } else {
            var user := NormalisedUser(data);
            b.SetItem("token", StoredText(Member(data, "access_token")));
            b.SetItem("user", Stringify(user));
            if Member(user, "role") == Some(JStr("admin")) {
              b.Navigate("/admin");
            } else {
              b.Navigate("/dashboard");
            }
          }
      }
      isLoading := false;
    }
  }
}
