/** The admin panel: its audit log, the session check applied to every answer, the
    three-step refresh of documents, users and categories, and the handlers that upload,
    download, create and delete records and tick category boxes. */
module Admin {
  import opened Text
  import opened Js
  import opened Web
  import opened Guards
  import opened Lists
  import opened Entities

  // ---------------------------------------------------------------- audit log

  /** The number of audit entries the panel keeps. */
  const AuditCap := 50

  /** One audit entry; the clock reading is an opaque number. */
  datatype AuditLog = AuditLog(action: string, details: string, timestamp: nat)

  function Min(a: int, b: int): int { if a < b then a else b }

  /** `[log, ...prev].slice(0, 50)`: the new entry first, then the previous entries in
      order, dropping only what falls beyond the cap. */
  function Logged(logs: seq<AuditLog>, entry: AuditLog): (r: seq<AuditLog>)
    ensures |r| == Min(|logs| + 1, AuditCap)
    ensures r[0] == entry
    ensures r[1..] == logs[..|r| - 1]
  {
    ([entry] + logs)[..Min(|logs| + 1, AuditCap)]
  }

  /** Adding the entries `es` one after the other. */
  function LogEach(logs: seq<AuditLog>, es: seq<AuditLog>): seq<AuditLog>
    decreases |es|
  {
    if |es| == 0 then logs else LogEach(Logged(logs, es[0]), es[1..])
  }

  /** The entries in the opposite order: the last one first. */
  function Reversed<T>(xs: seq<T>): (r: seq<T>)
    ensures |r| == |xs|
    ensures forall i :: 0 <= i < |xs| ==> r[i] == xs[|xs| - 1 - i]
  {
    if |xs| == 0 then [] else Reversed(xs[1..]) + [xs[0]]
  }

  /** However many entries are added, the log holds the most recent ones, newest first,
      followed by as many of the earlier entries as fit under the cap. */
  lemma {:induction false} LogKeepsNewest(logs: seq<AuditLog>, es: seq<AuditLog>)
    requires |logs| <= AuditCap
    ensures LogEach(logs, es) == (Reversed(es) + logs)[..Min(|es| + |logs|, AuditCap)]
    decreases |es|
  {
    if |es| > 0 {
      var e := es[0];
      var once := Logged(logs, e);
      var front := Reversed(es[1..]);
      var k := Min(|es| + |logs|, AuditCap);
      assert |es[1..]| + |once| >= k && Min(|es[1..]| + |once|, AuditCap) == k;
      calc {
        LogEach(logs, es);
        LogEach(once, es[1..]);
        { LogKeepsNewest(once, es[1..]); }
        (front + once)[..k];
        { PrefixOfTruncated(front, [e] + logs, |once|, k); }
        (front + ([e] + logs))[..k];
        { assert front + ([e] + logs) == (front + [e]) + logs; }
        (Reversed(es) + logs)[..k];
      }
    }
  }

  /** Truncating the tail further out than the final cut changes nothing. */
  lemma PrefixOfTruncated<T>(a: seq<T>, b: seq<T>, m: nat, k: nat)
    requires m <= |b| && k <= |a| + m
    ensures (a + b[..m])[..k] == (a + b)[..k]
  {
    assert forall i :: 0 <= i < k ==> (a + b[..m])[i] == (a + b)[i];
  }

  // ---------------------------------------------------------------- refresh

  /** How one step of the refresh ends: it goes on, it stops because the session was
      rejected, or it throws. */
  datatype Flow = Go | Halt | Raise(e: Exception)

  /** A request that fails throws; 401 and 403 stop the refresh; any other answer lets it
      go on, and a success whose payload cannot be read throws. */
  function FlowOf<T>(r: Response<seq<T>>): (f: Flow)
    ensures f == Halt <==> r.IsAuthFailure()
    ensures r.Failure? && !r.IsAuthFailure() ==> f == Go
    ensures r.NetworkError? ==> f == Raise(r.error)
    ensures r.Success? && !r.IsAuthFailure() ==>
              (f == Go <==> r.body.Parsed?) && (r.body.Unparsable? ==> f == Raise(r.body.error))
  {
    if r.NetworkError? then Raise(r.error)
    else if r.IsAuthFailure() then Halt
    else if r.Success? && r.body.Unparsable? then Raise(r.body.error)
    else Go
  }

  /** The list after one step: replaced by a successful answer's payload, otherwise kept. */
  function Loaded<T>(r: Response<seq<T>>, before: seq<T>): seq<T> {
    if FlowOf(r) == Go && r.Success? then r.body.value else before
  }

  datatype Tables = Tables(documents: seq<Document>, users: seq<User>, categories: seq<Category>)

  /** The lists after a refresh that has a token: documents, then users, then categories,
      each step reached only when every earlier step went on. */
  function Refreshed(before: Tables, docs: Response<seq<Document>>, users: Response<seq<User>>,
                     cats: Response<seq<Category>>): Tables
  {
    Tables(Loaded(docs, before.documents),
          if FlowOf(docs) == Go then Loaded(users, before.users) else before.users,
          if FlowOf(docs) == Go && FlowOf(users) == Go then Loaded(cats, before.categories) else before.categories)
  }

  /** The end of the refresh: the first step that does not go on decides. */
  function FetchFlow(docs: Response<seq<Document>>, users: Response<seq<User>>, cats: Response<seq<Category>>): Flow {
    if FlowOf(docs) != Go then FlowOf(docs)
    else if FlowOf(users) != Go then FlowOf(users)
    else FlowOf(cats)
  }

  /** A rejected session or a throw at one step leaves that list and every later one as
      it was; a non-auth failure leaves its own list and goes on; only answers that all
      succeed replace all three lists. */
  lemma RefreshStopsEarly(before: Tables, docs: Response<seq<Document>>, users: Response<seq<User>>,
                          cats: Response<seq<Category>>)
    ensures var after := Refreshed(before, docs, users, cats);
            (FlowOf(docs) != Go ==> after == before)
            && (FlowOf(users) != Go ==> after.users == before.users && after.categories == before.categories)
            && (FlowOf(cats) != Go ==> after.categories == before.categories)
            && (docs.Failure? && !docs.IsAuthFailure() ==> after.documents == before.documents && FetchFlow(docs, users, cats) == FetchFlow(Success(200, Parsed([])), users, cats))
            && (FetchFlow(docs, users, cats) == Go && docs.Success? && users.Success? && cats.Success? ==>
                  after == Tables(docs.body.value, users.body.value, cats.body.value))
  {
  }

  const LoadFailed := "Failed to load data. Please check your connection and try again."

  /** The audit log after a refresh that has a token. */
  function FetchLog(logs: seq<AuditLog>, flow: Flow, now: nat): seq<AuditLog> {
    match flow
    case Go => Logged(logs, AuditLog("DATA_FETCH", "Loaded all admin data", now))
    case Halt => logs
    case Raise(e) => Logged(logs, AuditLog("ERROR", "Failed to fetch data: " + ExceptionText(e), now))
  }

  /** The browser after a refresh that has a token: a rejected session is ended and sent
      to the login page, and an error is alerted. */
  function StorageAfter(st: Storage, flow: Flow): Storage {
    if flow == Halt then st - {"token", "user"} else st
  }

  function NavigationsAfter(navs: seq<string>, flow: Flow): seq<string> {
    if flow == Halt then navs + ["/login"] else navs
  }

  function AlertsAfter(alerts: seq<string>, flow: Flow): seq<string> {
    alerts + (if flow.Raise? then [LoadFailed] else [])
  }

  // ---------------------------------------------------------------- pure helpers

  const MissingFileOrTitle := "Please select a file and enter a title"
  const NoCategory := "Please select at least one category"
  const FillRequired := "Please fill in all required fields"
  const UploadRetry := "Upload failed. Please try again."

  /** The upload checks in order: a file and a title that is not blank, then at least one
      category. `None` lets the upload through; otherwise the alert shown. */
  function UploadGate(file: Option<File>, title: string, cats: seq<string>): (alert: Option<string>)
    ensures alert.None? <==> file.Some? && !AllWhitespace(title) && |cats| > 0
    ensures alert == Some(NoCategory) <==> file.Some? && !AllWhitespace(title) && |cats| == 0
  {
    BlankIffAllWhitespace(title);
    if file.None? || IsBlank(title) then Some(MissingFileOrTitle)
    else if |cats| == 0 then Some(NoCategory)
    else None
  }

  /** The alert and the audit detail for an upload the server refused: its `detail`
      (or a fixed text), or the thrown error's text when the payload cannot be read. */
  function UploadRefusal(body: Body<Json>): (r: (string, string))
    ensures body.Unparsable? || body.value == JNull ==> r.0 == UploadRetry
    ensures body.Parsed? && body.value != JNull ==>
              var detail := Member(body.value, "detail");
              r.0 == "Upload failed: " + (if TruthyOpt(detail) then ToJsString(detail.value) else "Unknown error")
    ensures "Failed to upload document: " <= r.1
    ensures body.Unparsable? ==> r.1 == "Failed to upload document: " + ExceptionText(body.error)
    ensures body == Parsed(JNull) ==> r.1 == "Failed to upload document: " + ExceptionText(NullRead("detail"))
    ensures body.Parsed? && body.value != JNull ==>
              var detail := Member(body.value, "detail");
              (detail.None? ==> r.1 == "Failed to upload document: undefined")
              && (detail.Some? ==> r.1 == "Failed to upload document: " + ToJsString(detail.value))
  {
    match body
    case Unparsable(e) => (UploadRetry, "Failed to upload document: " + ExceptionText(e))
    case Parsed(v) =>
      if v == JNull then (UploadRetry, "Failed to upload document: " + ExceptionText(NullRead("detail")))
      else
        ("Upload failed: " + Interpolate(Or(Member(v, "detail"), Some(JStr("Unknown error")))),
         "Failed to upload document: " + Interpolate(Member(v, "detail")))
  }

  /** The fields of the create-user form. */
  datatype NewUser = NewUser(email: string, password: string, fullName: string, role: string,
                             departmentId: Option<string>, categoryIds: seq<string>)

  /** The form as it opens, and as it is reset after a user is created. */
  const EmptyNewUser := NewUser("", "", "", "medewerker", None, [])

  /** The create-user check: e-mail, password and full name must each be non-blank. */
  predicate CreateUserAllowed(u: NewUser)
    ensures CreateUserAllowed(u) <==> !AllWhitespace(u.email) && !AllWhitespace(u.password) && !AllWhitespace(u.fullName)
  {
    BlankIffAllWhitespace(u.email);
    BlankIffAllWhitespace(u.password);
    BlankIffAllWhitespace(u.fullName);
    !IsBlank(u.email) && !IsBlank(u.password) && !IsBlank(u.fullName)
  }

  /** The alert for a create-user answer that is not a success. */
  function CreateUserRefusal(body: Body<Json>): (alert: string)
    ensures body.Unparsable? || body.value == JNull ==> "Network error: " <= alert
    ensures body.Unparsable? ==> alert == "Network error: " + ExceptionText(body.error)
    ensures body == Parsed(JNull) ==> alert == "Network error: " + ExceptionText(NullRead("detail"))
    ensures body.Parsed? && body.value != JNull ==>
              var detail := Member(body.value, "detail");
              alert == if TruthyOpt(detail) then ToJsString(detail.value) else "Failed to create user"
  {
    match body
    case Unparsable(e) => "Network error: " + ExceptionText(e)
    case Parsed(v) =>
      if v == JNull then "Network error: " + ExceptionText(NullRead("detail"))
      else ToJsString(Or(Member(v, "detail"), Some(JStr("Failed to create user"))).value)
  }

  datatype NewCategory = NewCategory(name: string, description: string)

  const EmptyNewCategory := NewCategory("", "")

  /** `documents.filter(d => d.id !== docId)` and the same for users and categories. */
  function RemoveDocument(docs: seq<Document>, id: string): (r: seq<Document>)
    ensures |r| <= |docs|
    ensures forall i :: 0 <= i < |r| ==> r[i] in docs && r[i].id != id
  {
    Filter(docs, (d: Document) => d.id != id)
  }

  function RemoveUser(users: seq<User>, id: string): (r: seq<User>)
    ensures |r| <= |users|
    ensures forall i :: 0 <= i < |r| ==> r[i] in users && r[i].id != id
  {
    Filter(users, (u: User) => u.id != id)
  }

  function RemoveCategory(cats: seq<Category>, id: string): (r: seq<Category>)
    ensures |r| <= |cats|
    ensures forall i :: 0 <= i < |r| ==> r[i] in cats && r[i].id != id
  {
    Filter(cats, (c: Category) => c.id != id)
  }

  /** A delete removes exactly the records with that id, keeps every other record with all
      its occurrences, and deleting again changes nothing. */
  lemma DeleteRemovesExactly(docs: seq<Document>, users: seq<User>, cats: seq<Category>, id: string,
                             d: Document, u: User, c: Category)
    ensures d in RemoveDocument(docs, id) <==> d in docs && d.id != id
    ensures u in RemoveUser(users, id) <==> u in users && u.id != id
    ensures c in RemoveCategory(cats, id) <==> c in cats && c.id != id
    ensures d.id != id ==> multiset(RemoveDocument(docs, id))[d] == multiset(docs)[d]
    ensures RemoveDocument(RemoveDocument(docs, id), id) == RemoveDocument(docs, id)
    ensures RemoveUser(RemoveUser(users, id), id) == RemoveUser(users, id)
    ensures RemoveCategory(RemoveCategory(cats, id), id) == RemoveCategory(cats, id)
  {
    FilterMembers(docs, (x: Document) => x.id != id, d);
    FilterMembers(users, (x: User) => x.id != id, u);
    FilterMembers(cats, (x: Category) => x.id != id, c);
    FilterCounts(docs, (x: Document) => x.id != id, d);
    FilterIdempotent(docs, (x: Document) => x.id != id);
    FilterIdempotent(users, (x: User) => x.id != id);
    FilterIdempotent(cats, (x: Category) => x.id != id);
  }

  /** The user search: the lower-cased term occurs in the lower-cased full name or e-mail,
      and the role filter is "all" or the user's role. */
  predicate MatchesFilters(u: User, term: string, roleFilter: string)
    ensures MatchesFilters(u, term, roleFilter) ==> roleFilter == "all" || u.role == roleFilter
    ensures (Contains(u.fullName, term) || Contains(u.email, term)) && (roleFilter == "all" || u.role == roleFilter) ==>
              MatchesFilters(u, term, roleFilter)
    ensures term == "" ==> (MatchesFilters(u, term, roleFilter) <==> roleFilter == "all" || u.role == roleFilter)
  {
    ContainsLower(u.fullName, term);
    ContainsLower(u.email, term);
    assert ToLower("") == "";
    assert Contains(ToLower(u.fullName), "");
    (Contains(ToLower(u.fullName), ToLower(term)) || Contains(ToLower(u.email), ToLower(term)))
    && (roleFilter == "all" || u.role == roleFilter)
  }

  function FilterUsers(users: seq<User>, term: string, roleFilter: string): (r: seq<User>)
    ensures |r| <= |users|
    ensures forall i :: 0 <= i < |r| ==> r[i] in users && MatchesFilters(r[i], term, roleFilter)
  {
    Filter(users, (u: User) => MatchesFilters(u, term, roleFilter))
  }

  /** The filtered list holds exactly the matching users, in their original order (the
      filter of a concatenation is the concatenation of the filters); an empty search with
      "all" shows everyone. */
  lemma FilteredUsersSpec(users: seq<User>, more: seq<User>, term: string, roleFilter: string, u: User)
    ensures u in FilterUsers(users, term, roleFilter) <==> u in users && MatchesFilters(u, term, roleFilter)
    ensures FilterUsers(users + more, term, roleFilter) == FilterUsers(users, term, roleFilter) + FilterUsers(more, term, roleFilter)
    ensures FilterUsers(users, "", "all") == users
  {
    FilterMembers(users, (x: User) => MatchesFilters(x, term, roleFilter), u);
    FilterConcat(users, more, (x: User) => MatchesFilters(x, term, roleFilter));
    forall i | 0 <= i < |users|
      ensures MatchesFilters(users[i], "", "all")
    {
      assert ToLower("") == "";
      assert Contains(ToLower(users[i].fullName), "");
    }
    FilterKeepsAll(users, (x: User) => MatchesFilters(x, "", "all"));
  }

  /** The key `filename="` starts at `k`. */
  predicate KeyAt(h: string, k: int) {
    0 <= k && k + 10 <= |h| && h[k..k + 10] == "filename=\""
  }

  /** `/filename="([^"]*)"/` matches at `k`: the key, then a closing quote further on. */
  predicate MatchAt(h: string, k: int) {
    KeyAt(h, k) && ClosingQuote(h, k + 10).Some?
  }

  /** The leftmost match of `/filename="([^"]*)"/` at or after `i`: its captured text, or
      `None` when the pattern matches nowhere from `i` on. */
  function FilenameMatch(header: string, i: nat): (r: Option<string>)
    ensures r.Some? ==> '"' !in r.value
    decreases |header| - i
  {
    if i + 10 > |header| then None
    else if MatchAt(header, i) then
      Some(header[i + 10..ClosingQuote(header, i + 10).value])
    else FilenameMatch(header, i + 1)
  }

  /** The match found is the leftmost one: the capture of a match at some `k`, with no
      match between `i` and `k`; and there is none exactly when no position matches. */
  lemma {:induction false} FilenameMatchLeftmost(header: string, i: nat)
    ensures FilenameMatch(header, i).Some? ==>
              exists k :: i <= k && MatchAt(header, k)
                          && FilenameMatch(header, i).value == header[k + 10..ClosingQuote(header, k + 10).value]
                          && forall k' :: i <= k' < k ==> !MatchAt(header, k')
    ensures FilenameMatch(header, i).None? <==> forall k :: i <= k ==> !MatchAt(header, k)
    decreases |header| - i
  {
    if i + 10 > |header| {
    } else if MatchAt(header, i) {
    } else {
      FilenameMatchLeftmost(header, i + 1);
      if FilenameMatch(header, i).Some? {
        var k :| i + 1 <= k && MatchAt(header, k)
                 && FilenameMatch(header, i + 1).value == header[k + 10..ClosingQuote(header, k + 10).value]
                 && forall k' :: i + 1 <= k' < k ==> !MatchAt(header, k');
        assert forall k' :: i <= k' < k ==> !MatchAt(header, k');
      }
    }
  }

  /** The first `"` at or after `j`. */
  function ClosingQuote(s: string, j: nat): (r: Option<nat>)
    ensures r.Some? ==> j <= r.value < |s| && s[r.value] == '"' && '"' !in s[j..r.value]
    ensures r.None? ==> '"' !in s[Min(j, |s|)..]
    decreases |s| - j
  {
    if j >= |s| then None
    else if s[j] == '"' then Some(j)
    else
      var r := ClosingQuote(s, j + 1);
      assert r.Some? ==> s[j..r.value] == [s[j]] + s[j + 1..r.value];
      assert r.None? ==> s[j..] == [s[j]] + s[j + 1..];
      r
  }

  /** The name a download is saved under: the quoted `filename` of the Content-Disposition
      header when it is there and not empty, otherwise the document's own file name. */
  function DownloadName(disposition: Option<string>, fileName: string): (name: string)
    ensures disposition.None? || disposition.value == "" ==> name == fileName
    ensures name != fileName ==> '"' !in name && name != ""
    ensures disposition.Some? && disposition.value != "" ==>
              var m := FilenameMatch(disposition.value, 0);
              (m.Some? && m.value != "" ==> name == m.value)
              && (m.None? || m.value == "" ==> name == fileName)
  {
    if disposition.Some? && disposition.value != "" then
      match FilenameMatch(disposition.value, 0)
      case Some(captured) => if captured != "" then captured else fileName
      case None => fileName
    else fileName
  }

  /** A header written the usual way gives back the file name it carries. */
  lemma DownloadNameRoundTrip(name: string, fileName: string)
    requires name != "" && '"' !in name
    ensures DownloadName(Some("attachment; filename=\"" + name + "\""), fileName) == name
  {
    var h := "attachment; filename=\"" + name + "\"";
    assert KeyAt(h, 12);
    forall i | 0 <= i < 12
      ensures !KeyAt(h, i)
    {
      assert h[i..i + 10][0] == h[i];
    }
    FilenameMatchSkips(h, 0, 12);
    ClosingQuoteAfter(h, 22, |name|);
    assert h[22..22 + |name|] == name;
  }

  /** A header with only the `filename*` form falls back to the document's own name. */
  lemma DownloadNameWithoutQuotedName(fileName: string)
    ensures DownloadName(Some("attachment; filename*=UTF-8''report.pdf"), fileName) == fileName
  {
    var g := "attachment; filename*=UTF-8''report.pdf";
    forall i | 0 <= i < |g|
      ensures g[i] != '"'
    {
    }
    NoQuoteNoMatch(g, 0);
  }

  /** A header whose quoted name is empty falls back to the document's own name. */
  lemma DownloadNameEmptyQuotes(fileName: string)
    ensures DownloadName(Some("attachment; filename=\"\""), fileName) == fileName
  {
    var e := "attachment; filename=\"\"";
    forall i | 0 <= i < 12
      ensures !KeyAt(e, i)
    {
      assert e[i..i + 10][0] == e[i];
    }
    FilenameMatchSkips(e, 0, 12);
    assert KeyAt(e, 12);
    assert ClosingQuote(e, 22) == Some(22);
    assert MatchAt(e, 12);
  }

  /** Positions where the key does not start are passed over. */
  lemma {:induction false} FilenameMatchSkips(h: string, i: nat, j: nat)
    requires i <= j && j + 10 <= |h|
    requires forall k :: i <= k < j ==> !KeyAt(h, k)
    ensures FilenameMatch(h, i) == FilenameMatch(h, j)
    decreases j - i
  {
    if i < j {
      FilenameMatchSkips(h, i + 1, j);
    }
  }

  /** The closing quote after a quote-free stretch is the first quote past it. */
  lemma {:induction false} ClosingQuoteAfter(s: string, j: nat, n: nat)
    requires j + n < |s| && s[j + n] == '"'
    requires forall k :: j <= k < j + n ==> s[k] != '"'
    ensures ClosingQuote(s, j) == Some(j + n)
    decreases n
  {
    if n > 0 {
      ClosingQuoteAfter(s, j + 1, n - 1);
    }
  }

  /** A header without any quote has no match. */
  lemma {:induction false} NoQuoteNoMatch(h: string, i: nat)
    requires forall k :: 0 <= k < |h| ==> h[k] != '"'
    ensures FilenameMatch(h, i) == None
    decreases |h| - i
  {
    if i + 10 <= |h| {
      assert h[i..i + 10][9] == h[i + 9];
      NoQuoteNoMatch(h, i + 1);
    }
  }
  // ---------------------------------------------------------------- the page

  /** The record the delete dialog is about, with the kind of record it is. */
  datatype DeleteTarget = DocumentTarget(doc: Document) | UserTarget(user: User) | CategoryTarget(category: Category)

  /** `deleteTarget?.title`, `?.email` and `?.name` as the audit text reads them: the
      field when the target has it, "undefined" otherwise. */
  function TargetTitle(t: Option<DeleteTarget>): string {
    if t.Some? && t.value.DocumentTarget? then t.value.doc.title else "undefined"
  }

  function TargetEmail(t: Option<DeleteTarget>): string {
    if t.Some? && t.value.UserTarget? then t.value.user.email else "undefined"
  }

  function TargetName(t: Option<DeleteTarget>): string {
    if t.Some? && t.value.CategoryTarget? then t.value.category.name else "undefined"
  }

  /** The error a failed download reports: the request's own, `Error: Download failed`
      for a non-ok status, or the error reading the payload. */
  function DownloadError(r: Response<()>): Exception
    requires !(r.Success? && r.body.Parsed?)
  {
    match r
    case NetworkError(e) => e
    case Failure(_, _) => Exception("Error", "Download failed")
    case Success(_, body) => body.error
  }

  const DeleteDocumentFailed := "Failed to delete document"
  const DeleteUserFailed := "Failed to delete user"
  const DeleteCategoryFailed := "Failed to delete category"

  /** The audit entry of a deletion that went through, by the kind of record deleted. */
  function DeleteEntry(t: DeleteTarget, now: nat): AuditLog {
    match t
    case DocumentTarget(d) => AuditLog("DELETE_DOCUMENT", "Deleted document: " + d.title, now)
    case UserTarget(u) => AuditLog("DELETE_USER", "Deleted user: " + u.email, now)
    case CategoryTarget(c) => AuditLog("DELETE_CATEGORY", "Deleted category: " + c.name, now)
  }

  /** The alert of a deletion the server refused or that failed. */
  function DeleteFailedText(t: DeleteTarget): string {
    match t
    case DocumentTarget(_) => DeleteDocumentFailed
    case UserTarget(_) => DeleteUserFailed
    case CategoryTarget(_) => DeleteCategoryFailed
  }
  const CreateCategoryFailed := "Failed to create category"

  /** The admin panel's state. */
  class AdminPage {
    var documents: seq<Document>
    var users: seq<User>
    var categories: seq<Category>
    var loading: bool
    var searchTerm: string
    var roleFilter: string
    var selectedFile: Option<File>
    var uploadTitle: string
    var uploadCategories: seq<string>
    var isUploading: bool
    var uploadSuccess: bool
    var deleteTarget: Option<DeleteTarget>
    var newUser: NewUser
    var newCategory: NewCategory
    var selectedDoc: Option<Document>
    var docCategoryIds: seq<string>
    var selectedUser: Option<User>
    var editUserRole: string
    var editUserCategories: seq<string>
    var auditLogs: seq<AuditLog>

    /** The audit log never grows beyond its cap. */
    predicate Valid()
      reads this`auditLogs
    {
      |auditLogs| <= AuditCap
    }

    constructor()
      ensures Valid() && auditLogs == []
      ensures documents == [] && users == [] && categories == [] && !loading
      ensures searchTerm == "" && roleFilter == "all"
      ensures selectedFile.None? && uploadTitle == "" && uploadCategories == [] && !isUploading && !uploadSuccess
      ensures deleteTarget.None? && newUser == EmptyNewUser && newCategory == EmptyNewCategory
      ensures selectedDoc.None? && docCategoryIds == [] && selectedUser.None? && editUserRole == "medewerker"
      ensures editUserCategories == []
    {
      documents, users, categories, loading := [], [], [], false;
      searchTerm, roleFilter := "", "all";
      selectedFile, uploadTitle, uploadCategories, isUploading, uploadSuccess := None, "", [], false, false;
      deleteTarget, newUser, newCategory := None, EmptyNewUser, EmptyNewCategory;
      selectedDoc, docCategoryIds, selectedUser, editUserRole, editUserCategories := None, [], None, "medewerker", [];
      auditLogs := [];
    }

    /** `addAuditLog`: the entry goes in front and the log stays within its cap. */
    method AddAuditLog(action: string, details: string, now: nat)
      modifies this`auditLogs
      ensures auditLogs == Logged(old(auditLogs), AuditLog(action, details, now)) && Valid()
    {
      auditLogs := Logged(auditLogs, AuditLog(action, details, now));
    }

    /** `checkAuth`: a 401 or 403 ends the session and goes to the login page; any other
        status lets the caller go on and changes nothing. */
    method CheckAuth<T>(b: Browser, r: Response<T>) returns (ok: bool)
      requires !r.NetworkError?
      modifies b`storage, b`navigations
      ensures ok <==> !r.IsAuthFailure()
      ensures ok ==> b.storage == old(b.storage) && b.navigations == old(b.navigations)
      ensures !ok ==> b.storage == old(b.storage) - {"token", "user"} && b.navigations == old(b.navigations) + ["/login"]
    {
      if r.status == 401 || r.status == 403 {
        b.EndSession("/login");
        return false;
      }
      return true;
    }

    /** One step of the refresh: the request's outcome, with the session ended on 401/403. */
    method Step<T>(b: Browser, r: Response<seq<T>>) returns (flow: Flow)
      modifies b`storage, b`navigations
      ensures flow == FlowOf(r)
      ensures flow == Halt ==> b.storage == old(b.storage) - {"token", "user"} && b.navigations == old(b.navigations) + ["/login"]
      ensures flow != Halt ==> b.storage == old(b.storage) && b.navigations == old(b.navigations)
    {
      if r.NetworkError? {
        return Raise(r.error);
      }
      var ok := CheckAuth(b, r);
      if !ok {
        return Halt;
      }
      if r.Success? && r.body.Unparsable? {
        return Raise(r.body.error);
      }
      return Go;
    }

    /** The three requests of the refresh, in order, stopping at the first step that does
        not go on. */
    method RefreshLists(b: Browser, docsRes: Response<seq<Document>>, usersRes: Response<seq<User>>,
                        catsRes: Response<seq<Category>>)
      returns (flow: Flow)
      modifies this`documents, this`users, this`categories, b`storage, b`navigations
      ensures flow == FetchFlow(docsRes, usersRes, catsRes)
      ensures Tables(documents, users, categories) == Refreshed(old(Tables(documents, users, categories)), docsRes, usersRes, catsRes)
      ensures flow == Halt ==> b.storage == old(b.storage) - {"token", "user"} && b.navigations == old(b.navigations) + ["/login"]
      ensures flow != Halt ==> b.storage == old(b.storage) && b.navigations == old(b.navigations)
    {
      flow := Step(b, docsRes);
      if flow == Go {
        documents := Loaded(docsRes, documents);
        flow := Step(b, usersRes);
        if flow == Go {
          users := Loaded(usersRes, users);
          flow := Step(b, catsRes);
          if flow == Go {
            categories := Loaded(catsRes, categories);
          }
        }
      }
    }

    /** `fetchData`. Without a token the page goes to the login page and stays loading.
        Otherwise the three lists are refreshed in order, stopping at the first rejected
        session or error; the log records the outcome, an error is also alerted, and the
        page stops loading. */
    method FetchData(b: Browser, docsRes: Response<seq<Document>>, usersRes: Response<seq<User>>,
                     catsRes: Response<seq<Category>>, now: nat)
      requires Valid()
      modifies this`documents, this`users, this`categories, this`loading, this`auditLogs
      modifies b`storage, b`navigations, b`alerts
      ensures Valid()
      ensures !HasItem(old(b.storage), "token") ==>
                loading && documents == old(documents) && users == old(users) && categories == old(categories)
                && auditLogs == old(auditLogs) && b.storage == old(b.storage) && b.alerts == old(b.alerts)
                && b.navigations == old(b.navigations) + ["/login"]
      ensures HasItem(old(b.storage), "token") ==>
                var flow := FetchFlow(docsRes, usersRes, catsRes);
                !loading
                && Tables(documents, users, categories) == Refreshed(old(Tables(documents, users, categories)), docsRes, usersRes, catsRes)
                && auditLogs == FetchLog(old(auditLogs), flow, now)
                && b.storage == StorageAfter(old(b.storage), flow)
                && b.navigations == NavigationsAfter(old(b.navigations), flow)
                && b.alerts == AlertsAfter(old(b.alerts), flow)
    {
      loading := true;
      if !HasItem(b.storage, "token") {
        b.Navigate("/login");
        return;
      }
      var flow := RefreshLists(b, docsRes, usersRes, catsRes);
      match flow {
        case Go => AddAuditLog("DATA_FETCH", "Loaded all admin data", now);
        case Halt =>
        case Raise(e) =>
          AddAuditLog("ERROR", "Failed to fetch data: " + ExceptionText(e), now);
          b.Alert(LoadFailed);
      }
      loading := false;
    }

    /** The mount check: a missing or unreadable session goes to the login page, a
        non-admin to the dashboard, and only an admin session loads the data. */
    method Mount(b: Browser, parse: string -> Option<Json>, docsRes: Response<seq<Document>>,
                 usersRes: Response<seq<User>>, catsRes: Response<seq<Category>>, now: nat)
      requires Valid()
      modifies this`documents, this`users, this`categories, this`loading, this`auditLogs
      modifies b`storage, b`navigations, b`alerts
      ensures Valid()
      ensures AdminMountDecision(old(b.storage), parse) == ToLogin ==>
                b.navigations == old(b.navigations) + ["/login"] && unchanged(this) && unchanged(b`storage, b`alerts)
      ensures AdminMountDecision(old(b.storage), parse) == ToDashboard ==>
                b.navigations == old(b.navigations) + ["/dashboard"] && unchanged(this) && unchanged(b`storage, b`alerts)
      ensures AdminMountDecision(old(b.storage), parse) == Render ==>
                var flow := FetchFlow(docsRes, usersRes, catsRes);
                !loading && Tables(documents, users, categories) == Refreshed(old(Tables(documents, users, categories)), docsRes, usersRes, catsRes)
                && auditLogs == FetchLog(old(auditLogs), flow, now)
                && b.storage == StorageAfter(old(b.storage), flow)
                && b.navigations == NavigationsAfter(old(b.navigations), flow)
                && b.alerts == AlertsAfter(old(b.alerts), flow)
    {
      var decision := AdminMountDecision(b.storage, parse);
      if decision == ToLogin {
        b.Navigate("/login");
      } else if decision == ToDashboard {
        b.Navigate("/dashboard");
      } else {
        FetchData(b, docsRes, usersRes, catsRes, now);
      }
    }

    /** Logging out ends the session and goes to the login page. */
    method HandleLogout(b: Browser)
      modifies b`storage, b`navigations
      ensures b.storage == old(b.storage) - {"token", "user"} && !SignedIn(b.storage)
      ensures b.navigations == old(b.navigations) + ["/login"]
    {
      b.EndSession("/login");
    }

    /** The upload button: enabled only when the upload checks would let the upload through
        and no upload is running. */
    predicate UploadDisabled()
      reads this`isUploading, this`selectedFile, this`uploadTitle, this`uploadCategories
      ensures UploadDisabled() <==> isUploading || UploadGate(selectedFile, uploadTitle, uploadCategories).Some?
    {
      BlankIffAllWhitespace(uploadTitle);
      isUploading || selectedFile.None? || IsBlank(uploadTitle) || |uploadCategories| == 0
    }

    /** Cancel in the upload dialog clears the file, the title and the ticked categories. */
    method CancelUpload()
      modifies this`selectedFile, this`uploadTitle, this`uploadCategories
      ensures selectedFile.None? && uploadTitle == "" && uploadCategories == []
      ensures UploadGate(selectedFile, uploadTitle, uploadCategories) == Some(MissingFileOrTitle)
    {
      selectedFile, uploadTitle, uploadCategories := None, "", [];
    }

    /** The category checkboxes of the upload, edit-document and edit-user dialogs. */
    method ToggleUploadCategory(id: string, checked: bool)
      modifies this`uploadCategories
      ensures uploadCategories == Toggle(old(uploadCategories), id, checked)
    {
      uploadCategories := Toggle(uploadCategories, id, checked);
    }

    method ToggleDocumentCategory(id: string, checked: bool)
      modifies this`docCategoryIds
      ensures docCategoryIds == Toggle(old(docCategoryIds), id, checked)
    {
      docCategoryIds := Toggle(docCategoryIds, id, checked);
    }

    method ToggleUserCategory(id: string, checked: bool)
      modifies this`editUserCategories
      ensures editUserCategories == Toggle(old(editUserCategories), id, checked)
    {
      editUserCategories := Toggle(editUserCategories, id, checked);
    }

    /** Opening the edit dialogs copies the record and the ids of its categories. */
    method OpenEditDocument(doc: Document)
      modifies this`selectedDoc, this`docCategoryIds
      ensures selectedDoc == Some(doc) && docCategoryIds == CategoryIds(doc.categories)
    {
      selectedDoc := Some(doc);
      docCategoryIds := CategoryIds(doc.categories);
    }

    method OpenEditUser(u: User)
      modifies this`selectedUser, this`editUserRole, this`editUserCategories
      ensures selectedUser == Some(u) && editUserRole == u.role && editUserCategories == CategoryIds(u.categories)
    {
      selectedUser := Some(u);
      editUserRole := u.role;
      editUserCategories := CategoryIds(u.categories);
    }

    /** The request part of `handleFileUpload`, once the form passed its checks and a token is
        there: a rejected session ends it; a success records the upload, clears the dialog
        and refreshes the lists; a refusal or an error alerts and records the failure. The
        page stops uploading in every case. */
    method SendUpload(b: Browser, uploadRes: Response<Json>, docsRes: Response<seq<Document>>,
                      usersRes: Response<seq<User>>, catsRes: Response<seq<Category>>, now: nat)
      requires Valid() && HasItem(b.storage, "token")
      modifies this`documents, this`users, this`categories, this`loading, this`auditLogs
      modifies this`isUploading, this`uploadSuccess, this`selectedFile, this`uploadTitle, this`uploadCategories
      modifies b`storage, b`navigations, b`alerts
      ensures Valid() && !isUploading
      ensures !(uploadRes.Success? && !uploadRes.IsAuthFailure()) ==>
                unchanged(this`documents, this`users, this`categories, this`loading)
                && unchanged(this`uploadSuccess, this`selectedFile, this`uploadTitle, this`uploadCategories)
      ensures uploadRes.IsAuthFailure() ==>
                b.storage == old(b.storage) - {"token", "user"} && b.navigations == old(b.navigations) + ["/login"]
                && b.alerts == old(b.alerts) && auditLogs == old(auditLogs)
      ensures uploadRes.Success? && !uploadRes.IsAuthFailure() ==>
                var flow := FetchFlow(docsRes, usersRes, catsRes);
                uploadSuccess && selectedFile.None? && uploadTitle == "" && uploadCategories == [] && !loading
                && Tables(documents, users, categories) == Refreshed(old(Tables(documents, users, categories)), docsRes, usersRes, catsRes)
                && auditLogs == FetchLog(Logged(old(auditLogs), AuditLog("UPLOAD_DOCUMENT", "Uploaded document: " + old(uploadTitle), now)),
                                         flow, now)
                && b.storage == StorageAfter(old(b.storage), flow)
                && b.navigations == NavigationsAfter(old(b.navigations), flow)
                && b.alerts == AlertsAfter(old(b.alerts), flow)
      ensures uploadRes.NetworkError? ==>
                b.alerts == old(b.alerts) + [UploadRetry] && unchanged(b`storage, b`navigations)
                && auditLogs == Logged(old(auditLogs), AuditLog("ERROR", "Failed to upload document: " + ExceptionText(uploadRes.error), now))
      ensures uploadRes.Failure? && !uploadRes.IsAuthFailure() ==>
                var (alert, detail) := UploadRefusal(uploadRes.errorBody);
                b.alerts == old(b.alerts) + [alert] && unchanged(b`storage, b`navigations)
                && auditLogs == Logged(old(auditLogs), AuditLog("ERROR", detail, now))
    {
      if uploadRes.NetworkError? {
        b.Alert(UploadRetry);
        AddAuditLog("ERROR", "Failed to upload document: " + ExceptionText(uploadRes.error), now);
      } else {
        var ok := CheckAuth(b, uploadRes);
        if ok {
          if uploadRes.Success? {
            uploadSuccess := true;
            AddAuditLog("UPLOAD_DOCUMENT", "Uploaded document: " + uploadTitle, now);
            selectedFile, uploadTitle, uploadCategories := None, "", [];
            FetchData(b, docsRes, usersRes, catsRes, now);
          } else {
            var (alert, detail) := UploadRefusal(uploadRes.errorBody);
            b.Alert(alert);
            AddAuditLog("ERROR", detail, now);
          }
        }
      }
      isUploading := false;
    }

    /** `handleFileUpload`. The form checks come first and only alert. Without a token the page
        goes to the login page and is left uploading. Otherwise the request is sent, as
        `SendUpload` states. Returns whether the request was sent. */
    method HandleFileUpload(b: Browser, uploadRes: Response<Json>, docsRes: Response<seq<Document>>,
                            usersRes: Response<seq<User>>, catsRes: Response<seq<Category>>, now: nat)
      returns (sent: bool)
      requires Valid()
      modifies this`documents, this`users, this`categories, this`loading, this`auditLogs
      modifies this`isUploading, this`uploadSuccess, this`selectedFile, this`uploadTitle, this`uploadCategories
      modifies b`storage, b`navigations, b`alerts
      ensures Valid()
      ensures sent <==> UploadGate(old(selectedFile), old(uploadTitle), old(uploadCategories)).None? && HasItem(old(b.storage), "token")
      ensures UploadGate(old(selectedFile), old(uploadTitle), old(uploadCategories)).Some? ==>
                b.alerts == old(b.alerts) + [UploadGate(old(selectedFile), old(uploadTitle), old(uploadCategories)).value]
                && unchanged(this) && unchanged(b`storage, b`navigations)
      ensures UploadGate(old(selectedFile), old(uploadTitle), old(uploadCategories)).None? && !sent ==>
                isUploading && !uploadSuccess && b.navigations == old(b.navigations) + ["/login"]
                && auditLogs == old(auditLogs) && b.alerts == old(b.alerts)
      ensures sent ==> !isUploading
      ensures sent && !uploadRes.Success? ==> !uploadSuccess
      ensures sent && !(uploadRes.Success? && !uploadRes.IsAuthFailure()) ==>
                !uploadSuccess && unchanged(this`documents, this`users, this`categories, this`loading)
                && unchanged(this`selectedFile, this`uploadTitle, this`uploadCategories)
      ensures sent && uploadRes.IsAuthFailure() ==>
                b.storage == old(b.storage) - {"token", "user"} && b.navigations == old(b.navigations) + ["/login"]
                && b.alerts == old(b.alerts) && auditLogs == old(auditLogs)
      ensures sent && uploadRes.Success? && !uploadRes.IsAuthFailure() ==>
                var flow := FetchFlow(docsRes, usersRes, catsRes);
                uploadSuccess && selectedFile.None? && uploadTitle == "" && uploadCategories == [] && !loading
                && Tables(documents, users, categories) == Refreshed(old(Tables(documents, users, categories)), docsRes, usersRes, catsRes)
                && auditLogs == FetchLog(Logged(old(auditLogs), AuditLog("UPLOAD_DOCUMENT", "Uploaded document: " + old(uploadTitle), now)),
                                         flow, now)
                && b.storage == StorageAfter(old(b.storage), flow)
                && b.navigations == NavigationsAfter(old(b.navigations), flow)
                && b.alerts == AlertsAfter(old(b.alerts), flow)
      ensures sent && uploadRes.NetworkError? ==>
                b.alerts == old(b.alerts) + [UploadRetry] && unchanged(b`storage, b`navigations)
                && auditLogs == Logged(old(auditLogs), AuditLog("ERROR", "Failed to upload document: " + ExceptionText(uploadRes.error), now))
      ensures sent && uploadRes.Failure? && !uploadRes.IsAuthFailure() ==>
                var (alert, detail) := UploadRefusal(uploadRes.errorBody);
                b.alerts == old(b.alerts) + [alert] && unchanged(b`storage, b`navigations)
                && auditLogs == Logged(old(auditLogs), AuditLog("ERROR", detail, now))
    {
      var gate := UploadGate(selectedFile, uploadTitle, uploadCategories);
      if gate.Some? {
        b.Alert(gate.value);
        return false;
      }
      isUploading := true;
      uploadSuccess := false;
      if !HasItem(b.storage, "token") {
        b.Navigate("/login");
        return false;
      }
      sent := true;
      SendUpload(b, uploadRes, docsRes, usersRes, catsRes, now);
    }

    /** `handleDownloadDocument`. A download that arrives is saved under the header's file
        name or the document's, and recorded; any failure alerts and records the error.
        Returns the name saved under, if any. */
    method HandleDownloadDocument(b: Browser, doc: Document, r: Response<()>, disposition: Option<string>, now: nat)
      returns (saved: Option<string>)
      requires Valid()
      modifies this`auditLogs, b`alerts
      ensures Valid()
      ensures saved.Some? <==> r.Success? && r.body.Parsed?
      ensures saved.Some? ==>
                saved.value == DownloadName(disposition, doc.fileName) && b.alerts == old(b.alerts)
                && auditLogs == Logged(old(auditLogs), AuditLog("DOWNLOAD_DOCUMENT", "Downloaded document: " + doc.title, now))
      ensures saved.None? ==>
                b.alerts == old(b.alerts) + ["Failed to download document"]
                && auditLogs == Logged(old(auditLogs), AuditLog("ERROR", "Failed to download document: " + ExceptionText(DownloadError(r)), now))
    {
      if r.Success? && r.body.Parsed? {
        saved := Some(DownloadName(disposition, doc.fileName));
        AddAuditLog("DOWNLOAD_DOCUMENT", "Downloaded document: " + doc.title, now);
      } else {
        saved := None;
        b.Alert("Failed to download document");
        AddAuditLog("ERROR", "Failed to download document: " + ExceptionText(DownloadError(r)), now);
      }
    }

    /** `handleDeleteDocument`: on success the documents with that id are removed, the
        dialog's target is cleared and the deletion recorded under the old target's title;
        a refusal or an error only alerts. */
    method HandleDeleteDocument(b: Browser, id: string, r: Response<()>, now: nat)
      requires Valid()
      modifies this`documents, this`deleteTarget, this`auditLogs, b`storage, b`navigations, b`alerts
      ensures Valid()
      ensures !HasItem(old(b.storage), "token") ==>
                b.navigations == old(b.navigations) + ["/login"] && unchanged(this) && unchanged(b`storage, b`alerts)
      ensures HasItem(old(b.storage), "token") && r.Success? && !r.IsAuthFailure() ==>
                documents == RemoveDocument(old(documents), id) && deleteTarget.None?
                && auditLogs == Logged(old(auditLogs), AuditLog("DELETE_DOCUMENT", "Deleted document: " + TargetTitle(old(deleteTarget)), now))
                && unchanged(b)
      ensures HasItem(old(b.storage), "token") && r.IsAuthFailure() ==>
                b.storage == old(b.storage) - {"token", "user"} && b.navigations == old(b.navigations) + ["/login"]
                && b.alerts == old(b.alerts) && unchanged(this)
      ensures HasItem(old(b.storage), "token") && !r.Success? && !r.IsAuthFailure() ==>
                b.alerts == old(b.alerts) + [DeleteDocumentFailed] && unchanged(b`storage, b`navigations) && unchanged(this)
    {
      if !HasItem(b.storage, "token") {
        b.Navigate("/login");
        return;
      }
      if r.NetworkError? {
        b.Alert(DeleteDocumentFailed);
        return;
      }
      var ok := CheckAuth(b, r);
      if !ok {
        return;
      }
      if r.Success? {
        var target := deleteTarget;
        documents := RemoveDocument(documents, id);
        deleteTarget := None;
        AddAuditLog("DELETE_DOCUMENT", "Deleted document: " + TargetTitle(target), now);
      } else {
        b.Alert(DeleteDocumentFailed);
      }
    }

    /** `handleDeleteUser`, the same for users, recorded under the old target's e-mail. */
    method HandleDeleteUser(b: Browser, id: string, r: Response<()>, now: nat)
      requires Valid()
      modifies this`users, this`deleteTarget, this`auditLogs, b`storage, b`navigations, b`alerts
      ensures Valid()
      ensures !HasItem(old(b.storage), "token") ==>
                b.navigations == old(b.navigations) + ["/login"] && unchanged(this) && unchanged(b`storage, b`alerts)
      ensures HasItem(old(b.storage), "token") && r.Success? && !r.IsAuthFailure() ==>
                users == RemoveUser(old(users), id) && deleteTarget.None?
                && auditLogs == Logged(old(auditLogs), AuditLog("DELETE_USER", "Deleted user: " + TargetEmail(old(deleteTarget)), now))
                && unchanged(b)
      ensures HasItem(old(b.storage), "token") && r.IsAuthFailure() ==>
                b.storage == old(b.storage) - {"token", "user"} && b.navigations == old(b.navigations) + ["/login"]
                && b.alerts == old(b.alerts) && unchanged(this)
      ensures HasItem(old(b.storage), "token") && !r.Success? && !r.IsAuthFailure() ==>
                b.alerts == old(b.alerts) + [DeleteUserFailed] && unchanged(b`storage, b`navigations) && unchanged(this)
    {
      if !HasItem(b.storage, "token") {
        b.Navigate("/login");
        return;
      }
      if r.NetworkError? {
        b.Alert(DeleteUserFailed);
        return;
      }
      var ok := CheckAuth(b, r);
      if !ok {
        return;
      }
      if r.Success? {
        var target := deleteTarget;
        users := RemoveUser(users, id);
        deleteTarget := None;
        AddAuditLog("DELETE_USER", "Deleted user: " + TargetEmail(target), now);
      } else {
        b.Alert(DeleteUserFailed);
      }
    }

    /** `handleDeleteCategory`, the same for categories, recorded under the old target's name. */
    method HandleDeleteCategory(b: Browser, id: string, r: Response<()>, now: nat)
      requires Valid()
      modifies this`categories, this`deleteTarget, this`auditLogs, b`storage, b`navigations, b`alerts
      ensures Valid()
      ensures !HasItem(old(b.storage), "token") ==>
                b.navigations == old(b.navigations) + ["/login"] && unchanged(this) && unchanged(b`storage, b`alerts)
      ensures HasItem(old(b.storage), "token") && r.Success? && !r.IsAuthFailure() ==>
                categories == RemoveCategory(old(categories), id) && deleteTarget.None?
                && auditLogs == Logged(old(auditLogs), AuditLog("DELETE_CATEGORY", "Deleted category: " + TargetName(old(deleteTarget)), now))
                && unchanged(b)
      ensures HasItem(old(b.storage), "token") && r.IsAuthFailure() ==>
                b.storage == old(b.storage) - {"token", "user"} && b.navigations == old(b.navigations) + ["/login"]
                && b.alerts == old(b.alerts) && unchanged(this)
      ensures HasItem(old(b.storage), "token") && !r.Success? && !r.IsAuthFailure() ==>
                b.alerts == old(b.alerts) + [DeleteCategoryFailed] && unchanged(b`storage, b`navigations) && unchanged(this)
    {
      if !HasItem(b.storage, "token") {
        b.Navigate("/login");
        return;
      }
      if r.NetworkError? {
        b.Alert(DeleteCategoryFailed);
        return;
      }
      var ok := CheckAuth(b, r);
      if !ok {
        return;
      }
      if r.Success? {
        var target := deleteTarget;
        categories := RemoveCategory(categories, id);
        deleteTarget := None;
        AddAuditLog("DELETE_CATEGORY", "Deleted category: " + TargetName(target), now);
      } else {
        b.Alert(DeleteCategoryFailed);
      }
    }

    /** `handleDelete`: the confirm button of the delete dialog deletes its target. */
    method HandleDelete(b: Browser, r: Response<()>, now: nat)
      requires Valid() && deleteTarget.Some?
      modifies this`documents, this`users, this`categories, this`deleteTarget, this`auditLogs
      modifies b`storage, b`navigations, b`alerts
      ensures Valid()
      ensures HasItem(old(b.storage), "token") && r.Success? && !r.IsAuthFailure() ==>
                deleteTarget.None?
                && match old(deleteTarget.value)
                   case DocumentTarget(d) => documents == RemoveDocument(old(documents), d.id) && users == old(users) && categories == old(categories)
                   case UserTarget(u) => users == RemoveUser(old(users), u.id) && documents == old(documents) && categories == old(categories)
                   case CategoryTarget(c) => categories == RemoveCategory(old(categories), c.id) && documents == old(documents) && users == old(users)
      ensures !(HasItem(old(b.storage), "token") && r.Success? && !r.IsAuthFailure()) ==>
                documents == old(documents) && users == old(users) && categories == old(categories)
      ensures HasItem(old(b.storage), "token") && r.Success? && !r.IsAuthFailure() ==>
                auditLogs == Logged(old(auditLogs), DeleteEntry(old(deleteTarget.value), now)) && unchanged(b)
      ensures !HasItem(old(b.storage), "token") ==>
                b.navigations == old(b.navigations) + ["/login"] && unchanged(this) && unchanged(b`storage, b`alerts)
      ensures HasItem(old(b.storage), "token") && r.IsAuthFailure() ==>
                b.storage == old(b.storage) - {"token", "user"} && b.navigations == old(b.navigations) + ["/login"]
                && b.alerts == old(b.alerts) && unchanged(this)
      ensures HasItem(old(b.storage), "token") && !r.Success? && !r.IsAuthFailure() ==>
                b.alerts == old(b.alerts) + [DeleteFailedText(old(deleteTarget.value))]
                && unchanged(b`storage, b`navigations) && unchanged(this)
    {
      match deleteTarget.value {
        case DocumentTarget(d) => HandleDeleteDocument(b, d.id, r, now);
        case UserTarget(u) => HandleDeleteUser(b, u.id, r, now);
        case CategoryTarget(c) => HandleDeleteCategory(b, c.id, r, now);
      }
    }

    /** `handleCreateUser`. A form with a blank e-mail, password or full name only alerts.
        A created user is appended, the form is reset, the creation recorded under the
        e-mail that was entered, and the lists are refreshed. A refusal alerts the server's
        `detail` (or a fixed text), an error "Network error: ...". Returns whether the
        request was sent. */
    method HandleCreateUser(b: Browser, r: Response<User>, docsRes: Response<seq<Document>>,
                            usersRes: Response<seq<User>>, catsRes: Response<seq<Category>>, now: nat)
      returns (sent: bool)
      requires Valid()
      modifies this`documents, this`users, this`categories, this`loading, this`auditLogs, this`newUser
      modifies b`storage, b`navigations, b`alerts
      ensures Valid()
      ensures sent <==> CreateUserAllowed(old(newUser)) && HasItem(old(b.storage), "token")
      ensures !CreateUserAllowed(old(newUser)) ==>
                b.alerts == old(b.alerts) + [FillRequired] && unchanged(this) && unchanged(b`storage, b`navigations)
      ensures CreateUserAllowed(old(newUser)) && !sent ==>
                b.navigations == old(b.navigations) + ["/login"] && unchanged(this) && unchanged(b`storage, b`alerts)
      ensures sent && r.Success? && r.body.Parsed? && !r.IsAuthFailure() ==>
                var flow := FetchFlow(docsRes, usersRes, catsRes);
                newUser == EmptyNewUser && !loading
                && Tables(documents, users, categories)
                   == Refreshed(Tables(old(documents), old(users) + [r.body.value], old(categories)), docsRes, usersRes, catsRes)
                && auditLogs == FetchLog(Logged(old(auditLogs), AuditLog("CREATE_USER", "Created user: " + old(newUser.email), now)),
                                         flow, now)
                && b.storage == StorageAfter(old(b.storage), flow)
                && b.navigations == NavigationsAfter(old(b.navigations), flow)
                && b.alerts == AlertsAfter(old(b.alerts), flow)
      ensures sent && r.Success? && r.body.Unparsable? && !r.IsAuthFailure() ==>
                b.alerts == old(b.alerts) + ["Network error: " + ExceptionText(r.body.error)]
                && unchanged(b`storage, b`navigations) && unchanged(this)
      ensures sent && r.NetworkError? ==>
                b.alerts == old(b.alerts) + ["Network error: " + ExceptionText(r.error)]
                && unchanged(b`storage, b`navigations) && unchanged(this)
      ensures sent && r.IsAuthFailure() ==>
                b.storage == old(b.storage) - {"token", "user"} && b.navigations == old(b.navigations) + ["/login"]
                && unchanged(this) && b.alerts == old(b.alerts)
      ensures sent && r.Failure? && !r.IsAuthFailure() ==>
                b.alerts == old(b.alerts) + [CreateUserRefusal(r.errorBody)]
                && unchanged(b`storage, b`navigations) && unchanged(this)
    {
      if !CreateUserAllowed(newUser) {
        b.Alert(FillRequired);
        return false;
      }
      if !HasItem(b.storage, "token") {
        b.Navigate("/login");
        return false;
      }
      sent := true;
      if r.NetworkError? {
        b.Alert("Network error: " + ExceptionText(r.error));
        return;
      }
      var ok := CheckAuth(b, r);
      if !ok {
        return;
      }
      if r.Failure? {
        b.Alert(CreateUserRefusal(r.errorBody));
        return;
      }
      match r.body {
        case Unparsable(e) =>
          b.Alert("Network error: " + ExceptionText(e));
        case Parsed(created) =>
          AddCreatedUser(b, created, docsRes, usersRes, catsRes, now);
      }
    }

    /** The success branch of `handleCreateUser`: the created user is appended, the form
        reset, the creation recorded, and the lists refreshed. */
    method AddCreatedUser(b: Browser, created: User, docsRes: Response<seq<Document>>,
                          usersRes: Response<seq<User>>, catsRes: Response<seq<Category>>, now: nat)
      requires Valid() && HasItem(b.storage, "token")
      modifies this`documents, this`users, this`categories, this`loading, this`auditLogs, this`newUser
      modifies b`storage, b`navigations, b`alerts
      ensures Valid() && newUser == EmptyNewUser
      ensures Tables(documents, users, categories)
              == Refreshed(Tables(old(documents), old(users) + [created], old(categories)), docsRes, usersRes, catsRes)
      ensures auditLogs == FetchLog(Logged(old(auditLogs), AuditLog("CREATE_USER", "Created user: " + old(newUser.email), now)),
                                    FetchFlow(docsRes, usersRes, catsRes), now)
      ensures !loading
      ensures b.storage == StorageAfter(old(b.storage), FetchFlow(docsRes, usersRes, catsRes))
      ensures b.navigations == NavigationsAfter(old(b.navigations), FetchFlow(docsRes, usersRes, catsRes))
      ensures b.alerts == AlertsAfter(old(b.alerts), FetchFlow(docsRes, usersRes, catsRes))
    {
      var email := newUser.email;
      users := users + [created];
      newUser := EmptyNewUser;
      AddAuditLog("CREATE_USER", "Created user: " + email, now);
      FetchData(b, docsRes, usersRes, catsRes, now);
    }

    /** `handleCreateCategory`. A blank name does nothing. A created category is appended,
        the form is reset and the creation recorded; anything else alerts. Returns whether
        the request was sent. */
    method HandleCreateCategory(b: Browser, r: Response<Category>, now: nat) returns (sent: bool)
      requires Valid()
      modifies this`categories, this`newCategory, this`auditLogs, b`storage, b`navigations, b`alerts
      ensures Valid()
      ensures sent <==> !IsBlank(old(newCategory.name)) && HasItem(old(b.storage), "token")
      ensures IsBlank(old(newCategory.name)) ==> unchanged(this) && unchanged(b)
      ensures !IsBlank(old(newCategory.name)) && !sent ==>
                b.navigations == old(b.navigations) + ["/login"] && unchanged(this) && unchanged(b`storage, b`alerts)
      ensures sent && r.Success? && r.body.Parsed? && !r.IsAuthFailure() ==>
                categories == old(categories) + [r.body.value] && newCategory == EmptyNewCategory
                && auditLogs == Logged(old(auditLogs), AuditLog("CREATE_CATEGORY", "Created category: " + old(newCategory.name), now))
                && unchanged(b)
      ensures sent && r.IsAuthFailure() ==>
                b.storage == old(b.storage) - {"token", "user"} && b.navigations == old(b.navigations) + ["/login"]
                && unchanged(this) && b.alerts == old(b.alerts)
      ensures sent && !(r.Success? && r.body.Parsed?) && !r.IsAuthFailure() ==>
                b.alerts == old(b.alerts) + [CreateCategoryFailed] && unchanged(b`storage, b`navigations) && unchanged(this)
    {
      if IsBlank(newCategory.name) {
        return false;
      }
      if !HasItem(b.storage, "token") {
        b.Navigate("/login");
        return false;
      }
      sent := true;
      if r.NetworkError? {
        b.Alert(CreateCategoryFailed);
        return;
      }
      var ok := CheckAuth(b, r);
      if !ok {
        return;
      }
      if r.Success? && r.body.Parsed? {
        var name := newCategory.name;
        categories := categories + [r.body.value];
        newCategory := EmptyNewCategory;
        AddAuditLog("CREATE_CATEGORY", "Created category: " + name, now);
      } else {
        b.Alert(CreateCategoryFailed);
      }
    }
  }
}
