/** The dashboard of an ordinary user: the chat with the assistant, the upload form with
    its category checkboxes, and the edit dialog of the user's own documents. */
module UserDashboard {
  import opened Text
  import opened Js
  import opened Web
  import opened Guards
  import opened Lists
  import opened Entities

  // ---------------------------------------------------------------- categories payload

  /** The category list read from the payload of `/api/categories/`: the payload itself
      when it is an array, else its `categories` array, else its `data` array, else no
      categories. `None` is the `TypeError` a `null` payload throws, which the page
      swallows, keeping its list. */
  function CategoriesPayload(data: Json): (r: Option<seq<Json>>)
    ensures r.None? <==> data == JNull
    ensures data.JArr? ==> r == Some(data.items)
    ensures !data.JArr? && data != JNull ==>
              var cats := Member(data, "categories");
              var inner := Member(data, "data");
              (cats.Some? && cats.value.JArr? ==> r == Some(cats.value.items))
              && (!(cats.Some? && cats.value.JArr?) && inner.Some? && inner.value.JArr? ==> r == Some(inner.value.items))
              && (!(cats.Some? && cats.value.JArr?) && !(inner.Some? && inner.value.JArr?) ==> r == Some([]))
  {
    if data.JArr? then Some(data.items)
    else if data == JNull then None
    else
      var cats := Member(data, "categories");
      var inner := Member(data, "data");
      if TruthyOpt(cats) && cats.value.JArr? then Some(cats.value.items)
      else if TruthyOpt(inner) && inner.value.JArr? then Some(inner.value.items)
      else Some([])
  }

  /** The three payload shapes the back end may send all give the same list; a `categories`
      key that is not an array is passed over in favour of `data`. */
  lemma PayloadShapes(items: seq<Json>, other: Json)
    ensures CategoriesPayload(JArr(items)) == Some(items)
    ensures CategoriesPayload(JObj([("categories", JArr(items))])) == Some(items)
    ensures CategoriesPayload(JObj([("data", JArr(items))])) == Some(items)
    ensures !other.JArr? ==> CategoriesPayload(JObj([("categories", other), ("data", JArr(items))])) == Some(items)
    ensures CategoriesPayload(JObj([])) == Some([]) && CategoriesPayload(JStr("x")) == Some([])
  {
  }

  // ---------------------------------------------------------------- chat

  datatype Role = UserRole | AssistantRole

  /** One chat bubble. The assistant's content is whatever the back end sent as `answer`. */
  datatype Message = Message(role: Role, content: Json)

  const NoResponse := "No response"
  const ChatError := "Sorry, I encountered an error."

  /** The assistant's reply to a question: the answer when the request succeeded and its
      payload could be read and has a truthy `answer`, "No response" when it has none, the
      apology otherwise. */
  function Reply(r: Response<Json>): (m: Json)
    ensures Truthy(m)
    ensures !(r.Success? && r.body.Parsed? && r.body.value != JNull) ==> m == JStr(ChatError)
    ensures r.Success? && r.body.Parsed? && r.body.value != JNull ==>
              m == (if TruthyOpt(Member(r.body.value, "answer")) then Member(r.body.value, "answer").value else JStr(NoResponse))
  {
    if r.Success? && r.body.Parsed? && r.body.value != JNull then
      Or(Member(r.body.value, "answer"), Some(JStr(NoResponse))).value
    else JStr(ChatError)
  }

  /** The chat is a sequence of exchanges: a question from the user, then one reply. */
  predicate Alternating(ms: seq<Message>) {
    |ms| % 2 == 0 && forall i :: 0 <= i < |ms| ==> ms[i].role == (if i % 2 == 0 then UserRole else AssistantRole)
  }

  /** Exchanges appended to a well-formed chat keep it well formed. */
  lemma AppendExchange(ms: seq<Message>, q: Json, a: Json)
    requires Alternating(ms)
    ensures Alternating(ms + [Message(UserRole, q), Message(AssistantRole, a)])
  {
    var r := ms + [Message(UserRole, q), Message(AssistantRole, a)];
    forall i | 0 <= i < |r|
      ensures r[i].role == (if i % 2 == 0 then UserRole else AssistantRole)
    {
      if i >= |ms| {
        assert i == |ms| || i == |ms| + 1;
      }
    }
  }

  /** The page's state. */
  class UserDashboardPage {
    var user: Json
    var messages: seq<Message>
    var inputMessage: string
    var isLoading: bool
    var selectedFile: Option<File>
    var uploadTitle: string
    var selectedCategories: seq<string>
    var categories: seq<Json>
    var isUploading: bool
    var uploadSuccess: bool
    var selectedDocument: Option<Document>
    var editTitle: string
    var editCategories: seq<string>

    /** The chat alternates between questions and replies, and no question is pending
        between two events. */
    predicate Valid()
      reads this`messages, this`isLoading
    {
      Alternating(messages) && !isLoading
    }

    constructor()
      ensures Valid() && user == JNull && messages == [] && inputMessage == ""
      ensures selectedFile.None? && uploadTitle == "" && selectedCategories == [] && categories == []
      ensures !isUploading && !uploadSuccess
      ensures selectedDocument.None? && editTitle == "" && editCategories == []
    {
      user, messages, inputMessage, isLoading := JNull, [], "", false;
      selectedFile, uploadTitle, selectedCategories, categories := None, "", [], [];
      isUploading, uploadSuccess := false, false;
      selectedDocument, editTitle, editCategories := None, "", [];
    }

    /** `fetchCategories`: a successful answer whose payload can be read replaces the
        list by its normalised form; anything else leaves the list as it was. */
    method FetchCategories(r: Response<Json>)
      modifies this`categories
      ensures r.Success? && r.body.Parsed? && CategoriesPayload(r.body.value).Some? ==>
                categories == CategoriesPayload(r.body.value).value
      ensures !(r.Success? && r.body.Parsed? && CategoriesPayload(r.body.value).Some?) ==> categories == old(categories)
    {
      if r.Success? && r.body.Parsed? {
        var list := CategoriesPayload(r.body.value);
        if list.Some? {
          categories := list.value;
        }
      }
    }

    /** The mount check: a missing session or a user string that does not parse goes to
        the login page; any parsed user is accepted, whatever its role, and the categories
        are fetched. */
    method Mount(b: Browser, parse: string -> Option<Json>, catsRes: Response<Json>)
      modifies this`user, this`categories, b`navigations
      ensures UserDashboardGate(b.storage, parse) == SendToLogin ==>
                b.navigations == old(b.navigations) + ["/login"] && user == old(user) && categories == old(categories)
      ensures UserDashboardGate(b.storage, parse).Accept? ==>
                b.navigations == old(b.navigations) && user == UserDashboardGate(b.storage, parse).user
                && (catsRes.Success? && catsRes.body.Parsed? && CategoriesPayload(catsRes.body.value).Some? ==>
                      categories == CategoriesPayload(catsRes.body.value).value)
                && (!(catsRes.Success? && catsRes.body.Parsed? && CategoriesPayload(catsRes.body.value).Some?) ==>
                      categories == old(categories))
    {
      match UserDashboardGate(b.storage, parse) {
        case SendToLogin =>
          b.Navigate("/login");
        case Accept(u) =>
          user := u;
          FetchCategories(catsRes);
      }
    }

    /** `handleSendMessage`. A blank input, or a question still pending, is ignored.
        Otherwise the trimmed question is added to the chat, the input cleared, and one
        reply added after it. Returns the question sent, if any. */
    method HandleSendMessage(chat: Response<Json>) returns (sent: Option<string>)
      modifies this`messages, this`inputMessage, this`isLoading
      ensures sent.None? <==> IsBlank(old(inputMessage)) || old(isLoading)
      ensures sent.None? ==> messages == old(messages) && inputMessage == old(inputMessage) && isLoading == old(isLoading)
      ensures sent.Some? ==>
                sent.value == Trim(old(inputMessage)) && inputMessage == "" && !isLoading
                && messages == old(messages) + [Message(UserRole, JStr(sent.value)), Message(AssistantRole, Reply(chat))]
      ensures old(Valid()) ==> Valid()
    {
      var question := Trim(inputMessage);
      if question == "" || isLoading {
        return None;
      }
      SendQuestion(question, chat);
      sent := Some(question);
    }

    /** The part of `handleSendMessage` after its checks: the question goes into the chat and
        the input is cleared, then the reply follows and the question is no longer pending. */
    method SendQuestion(question: string, chat: Response<Json>)
      modifies this`messages, this`inputMessage, this`isLoading
      ensures inputMessage == "" && !isLoading
      ensures messages == old(messages) + [Message(UserRole, JStr(question)), Message(AssistantRole, Reply(chat))]
      ensures Alternating(old(messages)) ==> Alternating(messages)
    {
      var reply := Reply(chat);
      if Alternating(messages) {
        AppendExchange(messages, JStr(question), reply);
      }
      messages := messages + [Message(UserRole, JStr(question))];
      inputMessage := "";
      isLoading := true;
      messages := messages + [Message(AssistantRole, reply)];
      isLoading := false;
      assert messages == old(messages) + [Message(UserRole, JStr(question)), Message(AssistantRole, reply)];
    }

    /** `handleFileUpload`: without a file or with a blank title nothing happens (no
        category is required). A success clears the form; a refusal or an error alerts.
        Returns whether the request was sent. */
    method HandleFileUpload(b: Browser, r: Response<Json>) returns (sent: bool)
      modifies this`isUploading, this`uploadSuccess, this`selectedFile, this`uploadTitle, this`selectedCategories, b`alerts
      ensures sent <==> old(selectedFile).Some? && !IsBlank(old(uploadTitle))
      ensures !sent ==> unchanged(this) && b.alerts == old(b.alerts)
      ensures sent ==> !isUploading
      ensures sent && r.Success? ==>
                uploadSuccess && selectedFile.None? && uploadTitle == "" && selectedCategories == [] && b.alerts == old(b.alerts)
      ensures sent && r.Failure? ==>
                b.alerts == old(b.alerts) + ["Upload failed"] && uploadSuccess == old(uploadSuccess)
                && selectedFile == old(selectedFile) && uploadTitle == old(uploadTitle) && selectedCategories == old(selectedCategories)
      ensures sent && r.NetworkError? ==>
                b.alerts == old(b.alerts) + ["Upload error"] && uploadSuccess == old(uploadSuccess)
                && selectedFile == old(selectedFile) && uploadTitle == old(uploadTitle) && selectedCategories == old(selectedCategories)
    {
      if selectedFile.None? || IsBlank(uploadTitle) {
        return false;
      }
      sent := true;
      isUploading := true;
      match r {
        case Success(_, _) =>
          uploadSuccess := true;
          selectedFile, uploadTitle, selectedCategories := None, "", [];
        case Failure(_, _) =>
          b.Alert("Upload failed");
        case NetworkError(_) =>
          b.Alert("Upload error");
      }
      isUploading := false;
    }

    /** The category checkboxes of the upload form and of the edit dialog. */
    method ToggleSelectedCategory(id: string, checked: bool)
      modifies this`selectedCategories
      ensures selectedCategories == Toggle(old(selectedCategories), id, checked)
    {
      selectedCategories := Toggle(selectedCategories, id, checked);
    }

    method ToggleEditCategory(id: string, checked: bool)
      modifies this`editCategories
      ensures editCategories == Toggle(old(editCategories), id, checked)
    {
      editCategories := Toggle(editCategories, id, checked);
    }

    /** `handleEditDocument`: the dialog opens on the document, its title and the ids of
        its categories. */
    method HandleEditDocument(doc: Document)
      modifies this`selectedDocument, this`editTitle, this`editCategories
      ensures selectedDocument == Some(doc) && editTitle == doc.title && editCategories == CategoryIds(doc.categories)
    {
      selectedDocument := Some(doc);
      editTitle := doc.title;
      editCategories := CategoryIds(doc.categories);
    }

    /** Logging out ends the session and goes to the login page. */
    method HandleLogout(b: Browser)
      modifies b`storage, b`navigations
      ensures b.storage == old(b.storage) - {"token", "user"} && !SignedIn(b.storage)
      ensures b.navigations == old(b.navigations) + ["/login"]
    {
      b.EndSession("/login");
    }
  }
}
