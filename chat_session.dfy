/**
 * The conversation session of the chat hook: its state variables and the one
 * operation that changes them, `sendMessage`. The credential read and the
 * endpoint call are the operation's two side effects; their outcomes are
 * parameters here.
 */
module ChatSession {
  import opened Wrappers
  import opened GeminiApi
  import opened SessionState

  class Session {
    var messages: seq<Message>
    var isLoading: bool
    var error: Option<string>
    /** Every setter call made on this session so far, in order. */
    ghost var trace: seq<Update>

    function State(): Snapshot
      reads this
    {
      Snapshot(messages, isLoading, error)
    }

    /** The state is exactly what the setter calls made so far have produced. */
    ghost predicate Valid()
      reads this
    {
      State() == Replay(Initial, trace)
    }

    constructor ()
      ensures Valid() && State() == Initial && trace == []
    {
      messages, isLoading, error := [], false, None;
      trace := [];
    }

    /** `setError(e)`. */
    method SetError(e: Option<string>)
      requires Valid()
      modifies this
      ensures Valid()
      ensures error == e && messages == old(messages) && isLoading == old(isLoading)
      ensures trace == old(trace) + [ErrorSet(e)]
    {
      error := e;
      trace := trace + [ErrorSet(e)];
      ReplaySnoc(Initial, old(trace), ErrorSet(e));
    }

    /** `setIsLoading(b)`. */
    method SetIsLoading(b: bool)
      requires Valid()
      modifies this
      ensures Valid()
      ensures isLoading == b && messages == old(messages) && error == old(error)
      ensures trace == old(trace) + [LoadingSet(b)]
    {
      isLoading := b;
      trace := trace + [LoadingSet(b)];
      ReplaySnoc(Initial, old(trace), LoadingSet(b));
    }

    /** `setMessages(prev => [...prev, m])`. */
    method AppendMessage(m: Message)
      requires Valid()
      modifies this
      ensures Valid()
      ensures messages == old(messages) + [m] && isLoading == old(isLoading) && error == old(error)
      ensures trace == old(trace) + [MessageAppended(m)]
    {
      messages := messages + [m];
      trace := trace + [MessageAppended(m)];
      ReplaySnoc(Initial, old(trace), MessageAppended(m));
    }

    /**
     * The `try` block of `sendMessage` once a credential was found: append the
     * user turn, set the flag, send the request, then append the answer or
     * report the failure. Returns the request sent.
     */
    method Exchange(content: string, key: string, reply: Reply) returns (request: Request)
      requires Valid()
      modifies this
      ensures Valid()
      ensures request == RequestFor(key, content)
      ensures trace == old(trace) + [MessageAppended(Message(User, content)), LoadingSet(true), ReplyUpdate(reply)]
      ensures isLoading
      ensures reply.Ok? && HasReplyText(reply.body) ==>
        messages == old(messages) + [Message(User, content), Message(Assistant, ReplyText(reply.body))] && error == old(error)
      ensures !(reply.Ok? && HasReplyText(reply.body)) ==>
        messages == old(messages) + [Message(User, content)] && error == Some(ErrorText(FailureDetail(reply)))
    {
      var userMessage := Message(User, content);
      AppendMessage(userMessage);
      SetIsLoading(true);
      request := RequestFor(key, content);
      match Complete(reply) {
      case Success(text) =>
        var assistantMessage := Message(Assistant, text);
        AppendMessage(assistantMessage);
      case Failure(t) =>
        // catch
        FailureReported(reply);
        SetError(Some(ErrorText(Detail(t))));
      }
    }

    /**
     * `sendMessage(content)`, given what the credential read produced and how
     * the endpoint call ended. Returns the request it sent, if any.
     */
    method SendMessage(content: string, lookup: KeyLookup, reply: Reply) returns (request: Option<Request>)
      requires Valid()
      modifies this
      ensures Valid()
      ensures request == RequestSent(content, lookup)
      ensures trace == old(trace) + Effects(content, lookup, reply)
      ensures State() == Outcome(old(State()), Send(content, lookup, reply))
    {
      SetError(None);
      request := None;
      ghost var s0, cleared := old(State()), trace;
      ghost var send := Send(content, lookup, reply);
      // The setter calls made between clearing the error and `finally`.
      ghost var calls: seq<Update>;
      // try
      match lookup {
      case LookupRejected(t) =>
        // catch
        SetError(Some(ErrorText(Detail(t))));
        calls := [ErrorSet(Some(ErrorText(Detail(t))))];
      case Stored(apiKey) =>
        if !Truthy(apiKey) {
          SetError(Some(MissingKeyMessage));
          calls := [ErrorSet(Some(MissingKeyMessage))];
        } else {
          var sent := Exchange(content, apiKey.value, reply);
          request := Some(sent);
          calls := [MessageAppended(Message(User, content)), LoadingSet(true), ReplyUpdate(reply)];
        }
      }
      assert Outcome(s0, send) == State().(isLoading := false);
      assert Effects(content, lookup, reply) == [ErrorSet(None)] + (calls + [LoadingSet(false)]);
      // finally
      SetIsLoading(false);
      AppendCalls(cleared, calls, [LoadingSet(false)]);
      AppendCalls(old(trace), [ErrorSet(None)], calls + [LoadingSet(false)]);
    }
  }

  /**
   * A fresh session, the credential "k1", the message "Hello" and the reply
   * "Hi there": the history is exactly those two turns and no error is shown.
   */
  method Scenario() returns (history: seq<Message>, error: Option<string>, loading: bool)
    ensures history == [Message(User, "Hello"), Message(Assistant, "Hi there")]
    ensures error == None && !loading
  {
    var session := new Session();
    var _ := session.SendMessage("Hello", Stored(Some("k1")), Ok(CanonicalBody("Hi there")));
    history, error, loading := session.messages, session.error, session.isLoading;
  }
}
