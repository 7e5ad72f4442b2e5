/** The older question-and-answer dashboard: a question box whose answers are kept newest
    first, each with a confidence badge. */
module Dashboard {
  import opened Text
  import opened Js
  import opened Web

  /** One answered question as the history keeps it; `answer` and `confidence` are the
      payload's properties as read (`None` when absent). */
  datatype ChatEntry = ChatEntry(question: string, answer: Option<Json>, confidence: Option<Json>, sources: Json)

  /** The entry made from a readable, non-`null` answer payload: the question as typed,
      the payload's `answer` and `confidence`, and its `sources` or an empty list. */
  function EntryFor(question: string, data: Json): (e: ChatEntry)
    requires data != JNull
    ensures e.question == question && e.answer == Member(data, "answer") && e.confidence == Member(data, "confidence")
    ensures TruthyOpt(Member(data, "sources")) ==> e.sources == Member(data, "sources").value
    ensures !TruthyOpt(Member(data, "sources")) ==> e.sources == JArr([])
  {
    ChatEntry(question, Member(data, "answer"), Member(data, "confidence"),
              Or(Member(data, "sources"), Some(JArr([]))).value)
  }

  /** The payload the page reads from the answer, whatever its status; `None` when the
      request fails, the payload cannot be read, or it is `null` (reading `answer` on it
      throws). */
  function AnswerPayload(r: Response<Json>): (d: Option<Json>)
    ensures d.Some? ==> d.value != JNull
    ensures d.None? <==> (r.NetworkError? || (r.Success? && (r.body.Unparsable? || r.body.value == JNull))
                          || (r.Failure? && (r.errorBody.Unparsable? || r.errorBody.value == JNull)))
  {
    match r
    case NetworkError(_) => None
    case Success(_, body) => if body.Parsed? && body.value != JNull then Some(body.value) else None
    case Failure(_, body) => if body.Parsed? && body.value != JNull then Some(body.value) else None
  }

  /** The badge for a confidence percentage. */
  datatype Label = Low | Medium | High

  function ConfidenceLabel(confidence: int): (l: Label)
    ensures l == High <==> confidence > 70
    ensures l == Medium <==> 40 < confidence <= 70
    ensures l == Low <==> confidence <= 40
  {
    if confidence > 70 then High else if confidence > 40 then Medium else Low
  }

  function Rank(l: Label): nat {
    match l
    case Low => 0
    case Medium => 1
    case High => 2
  }

  /** A higher confidence never gets a lower badge, and the bounds themselves fall in the
      lower band: 70 is medium, 40 is low. */
  lemma ConfidenceLabelMonotone(a: int, b: int)
    requires a <= b
    ensures Rank(ConfidenceLabel(a)) <= Rank(ConfidenceLabel(b))
    ensures ConfidenceLabel(70) == Medium && ConfidenceLabel(71) == High
    ensures ConfidenceLabel(40) == Low && ConfidenceLabel(41) == Medium
  {
  }

  /** The page's state. */
  class DashboardPage {
    var question: string
    var chatHistory: seq<ChatEntry>
    var loading: bool

    constructor()
      ensures question == "" && chatHistory == [] && !loading
    {
      question, chatHistory, loading := "", [], false;
    }

    /** `handleAskQuestion`. A blank question sends nothing. Otherwise, when an answer
        payload can be read, its entry goes in front of the history and the question box
        is cleared; when not, the history and the question stay as they were. Returns
        whether a request was made. */
    method HandleAskQuestion(r: Response<Json>) returns (asked: bool)
      modifies this`question, this`chatHistory, this`loading
      ensures asked <==> !IsBlank(old(question))
      ensures !asked ==> question == old(question) && chatHistory == old(chatHistory) && loading == old(loading)
      ensures asked ==> !loading
      ensures asked && AnswerPayload(r).Some? ==>
                chatHistory == [EntryFor(old(question), AnswerPayload(r).value)] + old(chatHistory) && question == ""
      ensures asked && AnswerPayload(r).None? ==> chatHistory == old(chatHistory) && question == old(question)
    {
      if IsBlank(question) {
        return false;
      }
      asked := true;
      loading := true;
      var data := AnswerPayload(r);
      if data.Some? {
        chatHistory := [EntryFor(question, data.value)] + chatHistory;
        question := "";
      }
      loading := false;
    }

    /** Logging out ends the session and goes to the start page. */
    method HandleLogout(b: Browser)
      modifies b`storage, b`navigations
      ensures b.storage == old(b.storage) - {"token", "user"} && !SignedIn(b.storage)
      ensures b.navigations == old(b.navigations) + ["/"]
    {
      b.EndSession("/");
    }
  }
}
