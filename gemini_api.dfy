/**
 * The completion exchange of the chat hook: the turn type, the request it
 * sends, the replies the endpoint can give, how a reply is checked, and how a
 * failure becomes the text shown to the user.
 */
module GeminiApi {
  import opened Wrappers

  /** Who wrote a turn. */
  datatype Role = User | Assistant

  /** One turn of the conversation; never changed once created. */
  datatype Message = Message(role: Role, content: string)

  /** What reaches `catch (err)`: an `Error` object with its message, or any other value. */
  datatype Thrown = ErrorValue(message: string) | OtherValue

  // The success body, as parsed from JSON; a key that is absent (or null) is None.
  datatype Part = Part(text: Option<string>)
  datatype Content = Content(parts: Option<seq<Part>>)
  datatype Candidate = Candidate(content: Option<Content>)
  datatype ResponseBody = ResponseBody(candidates: Option<seq<Candidate>>)

  // The body of a non-ok response, as parsed from JSON.
  datatype ErrorInfo = ErrorInfo(message: Option<string>)
  datatype ErrorBody = ErrorBody(error: Option<ErrorInfo>)

  /** How the call to the endpoint ended. */
  datatype Reply =
    | Rejected(thrown: Thrown)     // `fetch` or `response.json()` rejected with this value
    | NotOk(errorBody: ErrorBody)  // a non-2xx status, with its parsed body
    | Ok(body: ResponseBody)       // a 2xx status, with its parsed body

  // The outbound request: the credential (sent as the `key` query parameter) and the JSON body.
  datatype RequestPart = RequestPart(text: string)
  datatype RequestContent = RequestContent(parts: seq<RequestPart>)
  datatype Request = Request(key: string, contents: seq<RequestContent>)

  const MissingKeyMessage: string := "Please set your API key in settings to use the chat."
  const RequestFailedMessage: string := "Failed to get response from Gemini API"
  const InvalidFormatMessage: string := "Invalid response format from API"
  const UnknownErrorMessage: string := "An unknown error occurred"
  const ErrorPrefix: string := "Error: "
  const ErrorSuffix: string := ". Please try again."

  /** JavaScript truthiness of an optional string: absent and "" are both falsy. */
  predicate Truthy(s: Option<string>) {
    s.Some? && s.value != ""
  }

  /** The optional chain `data.candidates?.[0]?.content?.parts?.[0]?.text`. */
  function FirstText(body: ResponseBody): (r: Option<string>)
    ensures r.Some? ==>
      && body.candidates.Some? && |body.candidates.value| > 0
      && body.candidates.value[0].content.Some?
      && body.candidates.value[0].content.value.parts.Some?
      && |body.candidates.value[0].content.value.parts.value| > 0
      && r == body.candidates.value[0].content.value.parts.value[0].text
  {
    match body.candidates
    case None => None
    case Some(cs) =>
      if |cs| == 0 then None
      else match cs[0].content
        case None => None
        case Some(c) =>
          match c.parts
          case None => None
          case Some(ps) => if |ps| == 0 then None else ps[0].text
  }

  /**
   * The shape a usable reply has: a first candidate with content, whose first
   * part has a text that is a non-empty string.
   */
  predicate HasReplyText(body: ResponseBody) {
    && body.candidates.Some?
    && |body.candidates.value| > 0
    && body.candidates.value[0].content.Some?
    && body.candidates.value[0].content.value.parts.Some?
    && |body.candidates.value[0].content.value.parts.value| > 0
    && body.candidates.value[0].content.value.parts.value[0].text.Some?
    && body.candidates.value[0].content.value.parts.value[0].text.value != ""
  }

  /** The text at `candidates[0].content.parts[0].text` of a usable reply. */
  function ReplyText(body: ResponseBody): string
    requires HasReplyText(body)
  {
    body.candidates.value[0].content.value.parts.value[0].text.value
  }

  /** The body the endpoint documents for a reply with text `t`. */
  function CanonicalBody(t: string): ResponseBody {
    ResponseBody(Some([Candidate(Some(Content(Some([Part(Some(t))]))))]))
  }

  /** The error detail of a non-ok response: `errorData.error?.message || fallback`. */
  function ServerMessage(e: ErrorBody): (m: string)
    ensures m != ""
    ensures e.error.Some? && Truthy(e.error.value.message) ==> m == e.error.value.message.value
    ensures !(e.error.Some? && Truthy(e.error.value.message)) ==> m == RequestFailedMessage
  {
    var message := if e.error.Some? then e.error.value.message else None;
    if Truthy(message) then message.value else RequestFailedMessage
  }

  /**
   * The part of the `try` block after `fetch` resolved or rejected: either the
   * assistant's text, or the value thrown towards `catch`.
   */
  function Complete(reply: Reply): (r: Result<string, Thrown>)
    ensures r.Success? <==> reply.Ok? && HasReplyText(reply.body)
    ensures r.Success? ==> r.value != "" && r.value == ReplyText(reply.body)
    ensures reply.Ok? && !HasReplyText(reply.body) ==> r == Failure(ErrorValue(InvalidFormatMessage))
    ensures reply.NotOk? ==> r == Failure(ErrorValue(ServerMessage(reply.errorBody)))
    ensures reply.Rejected? ==> r == Failure(reply.thrown)
  {
    match reply
    case Rejected(t) => Failure(t)
    case NotOk(e) => Failure(ErrorValue(ServerMessage(e)))
    case Ok(body) =>
      var text := FirstText(body);
      if !Truthy(text) then Failure(ErrorValue(InvalidFormatMessage)) else Success(text.value)
  }

  /** The detail a failed reply reports, case by case. */
  function FailureDetail(reply: Reply): string
    requires !(reply.Ok? && HasReplyText(reply.body))
  {
    match reply
    case Rejected(t) => Detail(t)
    case NotOk(e) => ServerMessage(e)
    case Ok(_) => InvalidFormatMessage
  }

  /** `err instanceof Error ? err.message : 'An unknown error occurred'`. */
  function Detail(t: Thrown): (d: string)
    ensures t.ErrorValue? ==> d == t.message
    ensures t.OtherValue? ==> d == UnknownErrorMessage
  {
    match t
    case ErrorValue(m) => m
    case OtherValue => UnknownErrorMessage
  }

  /** The text shown for a failure with detail `detail`; the detail can be read back from it. */
  function ErrorText(detail: string): (e: string)
    ensures |e| == |ErrorPrefix| + |detail| + |ErrorSuffix|
    ensures e[..|ErrorPrefix|] == ErrorPrefix
    ensures e[|ErrorPrefix|..|e| - |ErrorSuffix|] == detail
    ensures e[|e| - |ErrorSuffix|..] == ErrorSuffix
  {
    ErrorPrefix + detail + ErrorSuffix
  }

  /** The request body built for `content`: one content entry with one text part. */
  function RequestFor(key: string, content: string): (r: Request)
    ensures r.key == key
    ensures |r.contents| == 1 && r.contents[0].parts == [RequestPart(content)]
  {
    Request(key, [RequestContent([RequestPart(content)])])
  }

  /** Every text part of a request, in order. */
  function Prompts(contents: seq<RequestContent>): seq<string> {
    if contents == [] then [] else PartTexts(contents[0].parts) + Prompts(contents[1..])
  }

  function PartTexts(parts: seq<RequestPart>): seq<string> {
    if parts == [] then [] else [parts[0].text] + PartTexts(parts[1..])
  }

  // ----- Lemmas -----

  /** The optional chain is truthy exactly on replies of the usable shape, and then yields their text. */
  lemma FirstTextMatchesShape(body: ResponseBody)
    ensures Truthy(FirstText(body)) <==> HasReplyText(body)
    ensures HasReplyText(body) ==> FirstText(body) == Some(ReplyText(body))
  {
  }

  /** A documented reply is accepted exactly when its text is non-empty. */
  lemma CanonicalReply(t: string)
    ensures Complete(Ok(CanonicalBody(t))) ==
      (if t == "" then Failure(ErrorValue(InvalidFormatMessage)) else Success(t))
  {
  }

  /** `candidates: []` is a malformed reply, not a crash. */
  lemma NoCandidatesIsMalformed()
    ensures Complete(Ok(ResponseBody(Some([])))) == Failure(ErrorValue(InvalidFormatMessage))
  {
  }

  /** Only the first candidate is looked at. */
  lemma OnlyFirstCandidateCounts(c: Candidate, rest: seq<Candidate>, more: seq<Candidate>)
    ensures Complete(Ok(ResponseBody(Some([c] + rest)))) == Complete(Ok(ResponseBody(Some([c] + more))))
  {
  }

  /** Within the first candidate, only the first part is looked at. */
  lemma OnlyFirstPartCounts(p: Part, ps1: seq<Part>, ps2: seq<Part>, rest: seq<Candidate>)
    ensures Complete(Ok(ResponseBody(Some([Candidate(Some(Content(Some([p] + ps1))))] + rest))))
         == Complete(Ok(ResponseBody(Some([Candidate(Some(Content(Some([p] + ps2))))] + rest))))
  {
  }

  /** Every failed reply is reported with its case's detail. */
  lemma FailureReported(reply: Reply)
    requires !(reply.Ok? && HasReplyText(reply.body))
    ensures Complete(reply).Failure?
    ensures Detail(Complete(reply).error) == FailureDetail(reply)
  {
  }

  /** Two failures show the same text only when their details agree. */
  lemma ErrorTextInjective(d1: string, d2: string)
    requires ErrorText(d1) == ErrorText(d2)
    ensures d1 == d2
  {
  }

  /** A failure's text can never be mistaken for the missing-credential message. */
  lemma ErrorTextIsNotMissingKey(d: string)
    ensures ErrorText(d) != MissingKeyMessage
  {
  }

  /** The request carries the current content as its one and only text part. */
  lemma {:induction false} RequestCarriesOnlyContent(key: string, content: string)
    ensures RequestFor(key, content).key == key
    ensures Prompts(RequestFor(key, content).contents) == [content]
  {
    var parts := [RequestPart(content)];
    assert PartTexts(parts[1..]) == [] by { assert parts[1..] == []; }
    var contents := RequestFor(key, content).contents;
    assert Prompts(contents[1..]) == [] by { assert contents[1..] == []; }
  }
}
