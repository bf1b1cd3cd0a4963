/**
 * The state the chat hook exposes (`messages`, `isLoading`, `error`), the
 * setter calls that change it, and the setter calls one `sendMessage` makes.
 * The lemmas here state what a call does to the state on each path.
 */
module SessionState {
  import opened Wrappers
  import opened GeminiApi

  /** The hook's three state variables at one moment. */
  datatype Snapshot = Snapshot(messages: seq<Message>, isLoading: bool, error: Option<string>)

  /** The state of a fresh session: no turns, not loading, no error. */
  const Initial: Snapshot := Snapshot([], false, None)

  /** One call of a state setter: `setError(e)`, `setIsLoading(b)`, or `setMessages(prev => [...prev, m])`. */
  datatype Update = ErrorSet(error: Option<string>) | LoadingSet(loading: bool) | MessageAppended(message: Message)

  /** How the read of the stored credential ended. */
  datatype KeyLookup = Stored(key: Option<string>) | LookupRejected(thrown: Thrown)

  /** One call of `sendMessage`, with what its two side effects produced. */
  datatype Send = Send(content: string, lookup: KeyLookup, reply: Reply)

  /** One setter call: it replaces or extends its own state variable and leaves the other two alone. */
  function Apply(s: Snapshot, u: Update): (r: Snapshot)
    ensures u.ErrorSet? ==> r == Snapshot(s.messages, s.isLoading, u.error)
    ensures u.LoadingSet? ==> r == Snapshot(s.messages, u.loading, s.error)
    ensures u.MessageAppended? ==> r == Snapshot(s.messages + [u.message], s.isLoading, s.error)
  {
    match u
    case ErrorSet(e) => s.(error := e)
    case LoadingSet(b) => s.(isLoading := b)
    case MessageAppended(m) => s.(messages := s.messages + [m])
  }

  /** The state after the setter calls `us`, made in order, starting from `s`. */
  function Replay(s: Snapshot, us: seq<Update>): Snapshot
    decreases |us|
  {
    if us == [] then s else Apply(Replay(s, us[..|us| - 1]), us[|us| - 1])
  }

  /** `!apiKey` fails: a credential was read and it is neither null nor "". */
  predicate HasKey(lookup: KeyLookup)
    ensures lookup == Stored(None) || lookup == Stored(Some("")) || lookup.LookupRejected? ==> !HasKey(lookup)
    ensures lookup.Stored? && lookup.key.Some? && lookup.key.value != "" ==> HasKey(lookup)
  {
    lookup.Stored? && Truthy(lookup.key)
  }

  /** The request `sendMessage` sends, if it gets that far. */
  function RequestSent(content: string, lookup: KeyLookup): (r: Option<Request>)
    ensures r.Some? <==> HasKey(lookup)
    ensures r.Some? ==> r.value == RequestFor(lookup.key.value, content)
  {
    if HasKey(lookup) then Some(RequestFor(lookup.key.value, content)) else None
  }

  /** The setter call that ends the `try` block once the reply is in: append the answer or report the failure. */
  function ReplyUpdate(reply: Reply): (u: Update)
    ensures u.MessageAppended? <==> reply.Ok? && HasReplyText(reply.body)
    ensures u.MessageAppended? ==> u.message == Message(Assistant, ReplyText(reply.body))
    ensures !u.MessageAppended? ==> u == ErrorSet(Some(ErrorText(FailureDetail(reply))))
  {
    match Complete(reply)
    case Success(text) => MessageAppended(Message(Assistant, text))
    case Failure(t) => ErrorSet(Some(ErrorText(Detail(t))))
  }

  /**
   * The setter calls of one `sendMessage(content)`, in order: clear the error;
   * then the credential check, the user turn, the loading flag and the reply;
   * and, from `finally`, clear the loading flag on every path.
   */
  function Effects(content: string, lookup: KeyLookup, reply: Reply): (us: seq<Update>)
    ensures |us| == if HasKey(lookup) then 5 else 3
    ensures us[0] == ErrorSet(None)
    ensures us[|us| - 1] == LoadingSet(false)
    ensures LoadingSet(true) in us <==> HasKey(lookup)
    ensures forall i :: 0 <= i < |us| && us[i] == LoadingSet(true) ==>
              0 < i && us[i - 1] == MessageAppended(Message(User, content))
  {
    match lookup
    case LookupRejected(t) =>
      [ErrorSet(None), ErrorSet(Some(ErrorText(Detail(t)))), LoadingSet(false)]
    case Stored(key) =>
      if !Truthy(key) then [ErrorSet(None), ErrorSet(Some(MissingKeyMessage)), LoadingSet(false)]
      else [ErrorSet(None), MessageAppended(Message(User, content)), LoadingSet(true), ReplyUpdate(reply), LoadingSet(false)]
  }

  /** The state after one `sendMessage` call from state `s`. */
  function After(s: Snapshot, send: Send): Snapshot {
    Replay(s, Effects(send.content, send.lookup, send.reply))
  }

  /**
   * What one call leaves behind, stated directly for each path: the credential
   * read fails, no credential, a usable reply, or a failing reply.
   */
  function Outcome(s: Snapshot, send: Send): Snapshot {
    match send.lookup
    case LookupRejected(t) => Snapshot(s.messages, false, Some(ErrorText(Detail(t))))
    case Stored(key) =>
      if !Truthy(key) then Snapshot(s.messages, false, Some(MissingKeyMessage))
      else if send.reply.Ok? && HasReplyText(send.reply.body) then
        Snapshot(s.messages + [Message(User, send.content), Message(Assistant, ReplyText(send.reply.body))], false, None)
      else Snapshot(s.messages + [Message(User, send.content)], false, Some(ErrorText(FailureDetail(send.reply))))
  }

  /** The state after a series of calls, each made once the one before has finished. */
  function Run(s: Snapshot, sends: seq<Send>): Snapshot
    decreases |sends|
  {
    if sends == [] then s else After(Run(s, sends[..|sends| - 1]), sends[|sends| - 1])
  }

  /** The user turns of a series of calls. */
  function UserTurns(sends: seq<Send>): (turns: seq<Message>)
    ensures |turns| == |sends|
    ensures forall i :: 0 <= i < |sends| ==> turns[i] == Message(User, sends[i].content)
    decreases |sends|
  {
    if sends == [] then [] else UserTurns(sends[..|sends| - 1]) + [Message(User, sends[|sends| - 1].content)]
  }

  /** The call found a credential and the reply had a usable text. */
  predicate Succeeds(send: Send) {
    HasKey(send.lookup) && send.reply.Ok? && HasReplyText(send.reply.body)
  }

  /** The call found a credential and then failed. */
  predicate FailsAfterKey(send: Send) {
    HasKey(send.lookup) && !(send.reply.Ok? && HasReplyText(send.reply.body))
  }

  // ----- Lemmas about the setter log -----

  /** Setter calls appended in two steps are the calls appended at once. */
  lemma AppendCalls(t: seq<Update>, us: seq<Update>, vs: seq<Update>)
    ensures t + us + vs == t + (us + vs)
  {
  }

  lemma ReplaySnoc(s: Snapshot, us: seq<Update>, u: Update)
    ensures Replay(s, us + [u]) == Apply(Replay(s, us), u)
  {
  }

  /** Setter calls compose: replaying two runs of calls is replaying the first, then the second. */
  lemma {:induction false} ReplayConcat(s: Snapshot, a: seq<Update>, b: seq<Update>)
    ensures Replay(s, a + b) == Replay(Replay(s, a), b)
    decreases |b|
  {
    if b == [] {
      assert a + b == a;
    } else {
      var b' := b[..|b| - 1];
      assert a + b == (a + b') + [b[|b| - 1]];
      assert b == b' + [b[|b| - 1]];
      ReplayConcat(s, a, b');
      ReplaySnoc(s, a + b', b[|b| - 1]);
      ReplaySnoc(Replay(s, a), b', b[|b| - 1]);
    }
  }

  /** No setter call removes or edits a turn: the old history is a prefix of the new one. */
  lemma {:induction false} ReplayKeepsHistory(s: Snapshot, us: seq<Update>)
    ensures s.messages <= Replay(s, us).messages
    decreases |us|
  {
    if us != [] {
      ReplayKeepsHistory(s, us[..|us| - 1]);
    }
  }

  lemma Replay3(s: Snapshot, u0: Update, u1: Update, u2: Update)
    ensures Replay(s, [u0, u1, u2]) == Apply(Apply(Apply(s, u0), u1), u2)
  {
    ReplaySnoc(s, [], u0);
    ReplaySnoc(s, [u0], u1);
    ReplaySnoc(s, [u0, u1], u2);
    assert [u0] == [] + [u0];
    assert [u0, u1] == [u0] + [u1];
    assert [u0, u1, u2] == [u0, u1] + [u2];
  }

  lemma Replay5(s: Snapshot, u0: Update, u1: Update, u2: Update, u3: Update, u4: Update)
    ensures Replay(s, [u0, u1, u2, u3, u4]) == Apply(Apply(Replay(s, [u0, u1, u2]), u3), u4)
  {
    ReplaySnoc(s, [u0, u1, u2], u3);
    ReplaySnoc(s, [u0, u1, u2, u3], u4);
    assert [u0, u1, u2, u3] == [u0, u1, u2] + [u3];
    assert [u0, u1, u2, u3, u4] == [u0, u1, u2, u3] + [u4];
  }

  // ----- What one call does, path by path -----

  /**
   * No credential (null, or the empty string): the fixed message is shown, the
   * history is untouched, no request is sent, and `finally` still clears the flag.
   */
  lemma NoCredential(s: Snapshot, content: string, key: Option<string>, reply: Reply)
    requires key == None || key == Some("")
    ensures After(s, Send(content, Stored(key), reply)) == Snapshot(s.messages, false, Some(MissingKeyMessage))
    ensures RequestSent(content, Stored(key)) == None
  {
    Replay3(s, ErrorSet(None), ErrorSet(Some(MissingKeyMessage)), LoadingSet(false));
  }

  /** The credential read itself rejects: the failure is shown and the history is untouched. */
  lemma CredentialReadFails(s: Snapshot, content: string, t: Thrown, reply: Reply)
    ensures After(s, Send(content, LookupRejected(t), reply)) == Snapshot(s.messages, false, Some(ErrorText(Detail(t))))
    ensures RequestSent(content, LookupRejected(t)) == None
  {
    Replay3(s, ErrorSet(None), ErrorSet(Some(ErrorText(Detail(t)))), LoadingSet(false));
  }

  /** While the request is in flight the user turn is already shown, the error is clear and the flag is set. */
  lemma InFlight(s: Snapshot, content: string, key: string, reply: Reply)
    requires key != ""
    ensures Replay(s, Effects(content, Stored(Some(key)), reply)[..3]) ==
            Snapshot(s.messages + [Message(User, content)], true, None)
  {
    var us := Effects(content, Stored(Some(key)), reply);
    assert us[..3] == [us[0], us[1], us[2]];
    Replay3(s, us[0], us[1], us[2]);
  }

  /** A usable reply: the user turn and then the assistant's text are appended, and no error is shown. */
  lemma SuccessfulSend(s: Snapshot, content: string, key: string, body: ResponseBody)
    requires key != "" && HasReplyText(body)
    ensures After(s, Send(content, Stored(Some(key)), Ok(body))) ==
            Snapshot(s.messages + [Message(User, content), Message(Assistant, ReplyText(body))], false, None)
  {
    var us := Effects(content, Stored(Some(key)), Ok(body));
    Replay5(s, us[0], us[1], us[2], us[3], us[4]);
    Replay3(s, us[0], us[1], us[2]);
    assert s.messages + [Message(User, content)] + [Message(Assistant, ReplyText(body))] ==
           s.messages + [Message(User, content), Message(Assistant, ReplyText(body))];
  }

  /**
   * Any failure once a credential is found: only the user turn is appended and
   * the error reads "Error: <detail>. Please try again.".
   */
  lemma FailedSend(s: Snapshot, content: string, key: string, reply: Reply)
    requires key != "" && !(reply.Ok? && HasReplyText(reply.body))
    ensures After(s, Send(content, Stored(Some(key)), reply)) ==
            Snapshot(s.messages + [Message(User, content)], false, Some(ErrorText(FailureDetail(reply))))
  {
    FailureReported(reply);
    var us := Effects(content, Stored(Some(key)), reply);
    Replay5(s, us[0], us[1], us[2], us[3], us[4]);
    Replay3(s, us[0], us[1], us[2]);
  }

  /** Whatever path a call takes, the loading flag is false when it returns. */
  lemma LoadingAlwaysCleared(s: Snapshot, send: Send)
    ensures !After(s, send).isLoading
  {
  }

  /** The setter calls of a call leave exactly the state its path promises. */
  lemma ReplayMatchesOutcome(s: Snapshot, send: Send)
    ensures After(s, send) == Outcome(s, send)
  {
    match send.lookup
    case LookupRejected(t) => CredentialReadFails(s, send.content, t, send.reply);
    case Stored(key) =>
      if !Truthy(key) {
        NoCredential(s, send.content, key, send.reply);
      } else if send.reply.Ok? && HasReplyText(send.reply.body) {
        SuccessfulSend(s, send.content, key.value, send.reply.body);
      } else {
        FailedSend(s, send.content, key.value, send.reply);
      }
  }

  /**
   * A session whose state is the replay of its setter calls `trace` stays so
   * after one more call: the replay of the longer log is that call's outcome.
   */
  lemma ReplayedCall(trace: seq<Update>, s: Snapshot, send: Send)
    requires Replay(Initial, trace) == s
    ensures Replay(Initial, trace + Effects(send.content, send.lookup, send.reply)) == Outcome(s, send)
  {
    ReplayConcat(Initial, trace, Effects(send.content, send.lookup, send.reply));
    ReplayMatchesOutcome(s, send);
  }

  /**
   * Every call only appends, and then by one turn (the user's) or two (the
   * user's and the assistant's); the old turns stay as they were.
   */
  lemma HistoryAppendOnly(s: Snapshot, send: Send)
    ensures s.messages <= After(s, send).messages
    ensures |After(s, send).messages| == |s.messages| + (if Succeeds(send) then 2 else if HasKey(send.lookup) then 1 else 0)
  {
    ReplayMatchesOutcome(s, send);
  }

  /** After a call, no error is shown exactly when the call succeeded. */
  lemma NoErrorExactlyOnSuccess(s: Snapshot, send: Send)
    ensures After(s, send).error == None <==> Succeeds(send)
  {
    ReplayMatchesOutcome(s, send);
  }

  // ----- Series of calls -----

  /** Over any series of calls, earlier turns are never removed or changed. */
  lemma {:induction false} RunAppendOnly(s: Snapshot, sends: seq<Send>)
    ensures s.messages <= Run(s, sends).messages
    decreases |sends|
  {
    if sends != [] {
      RunAppendOnly(s, sends[..|sends| - 1]);
      HistoryAppendOnly(Run(s, sends[..|sends| - 1]), sends[|sends| - 1]);
    }
  }

  lemma AppendAssociative(a: seq<Message>, b: seq<Message>, c: seq<Message>)
    ensures a + b + c == a + (b + c)
  {
  }

  /** Failing calls append exactly their user turns, in order, and no assistant turn. */
  lemma {:induction false} FailuresAppendUserTurns(s: Snapshot, sends: seq<Send>)
    requires forall i :: 0 <= i < |sends| ==> FailsAfterKey(sends[i])
    ensures Run(s, sends).messages == s.messages + UserTurns(sends)
    decreases |sends|
  {
    if sends == [] {
      assert s.messages + UserTurns(sends) == s.messages;
    } else {
      var init, last := sends[..|sends| - 1], sends[|sends| - 1];
      assert forall i :: 0 <= i < |init| ==> init[i] == sends[i];
      FailuresAppendUserTurns(s, init);
      var mid := Run(s, init);
      FailedSend(mid, last.content, last.lookup.key.value, last.reply);
      assert UserTurns(sends) == UserTurns(init) + [Message(User, last.content)];
      AppendAssociative(s.messages, UserTurns(init), [Message(User, last.content)]);
    }
  }

  /**
   * N failing calls append exactly their N user turns, in order, and no
   * assistant turn; the error then reports only the last failure.
   */
  lemma RepeatedFailures(s: Snapshot, sends: seq<Send>)
    requires forall i :: 0 <= i < |sends| ==> FailsAfterKey(sends[i])
    ensures Run(s, sends).messages == s.messages + UserTurns(sends)
    ensures sends != [] && FailsAfterKey(sends[|sends| - 1]) ==>
      (Run(s, sends) == Snapshot(s.messages + UserTurns(sends), false, Some(ErrorText(FailureDetail(sends[|sends| - 1].reply)))))
  {
    FailuresAppendUserTurns(s, sends);
    if sends != [] {
      var last := sends[|sends| - 1];
      FailedSend(Run(s, sends[..|sends| - 1]), last.content, last.lookup.key.value, last.reply);
    }
  }
}
