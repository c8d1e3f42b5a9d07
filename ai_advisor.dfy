/**
 * The advisory chat panel of components/AIAdvisor.tsx: a transcript of
 * role-tagged turns that only ever grows at the end, a pending input buffer
 * and a busy flag, driven by the send handler, the input and suggestion
 * setters, and the two ways the outbound model call can resolve.
 *
 * The model call itself is not modelled: `Submit` returns the contents it
 * would send, and the call's outcome arrives later as `CompleteOk` (with
 * the reply text, possibly absent) or `CompleteErr` (any thrown error).
 */
module AIAdvisor {
  import opened Wrappers
  import opened Arrays
  import opened JsStrings

  datatype Role = User | Assistant

  /** One turn of the transcript. */
  datatype Message = Message(role: Role, content: string)

  /** One text part of an outbound turn. */
  datatype Part = Part(text: string)

  /** One outbound turn: its text parts only; the role is not sent. */
  datatype Content = Content(parts: seq<Part>)

  const Greeting: string :=
    "Hello! I am your Common Home Advisor. I can help explain the conversion process, demystify legal risks, and help you draft communications for your neighbors. What would you like to know today?"

  /** What the panel shows when the reply carries no text. */
  const FallbackReply: string := "I'm sorry, I couldn't process that. Please try again."

  /** What the panel shows when the call fails. */
  const ConnectionApology: string :=
    "Sorry, I'm having trouble connecting to my legal database right now. Please try again in a moment."

  /** The canned prompts of the suggestion buttons. */
  const Suggestions: seq<string> :=
    ["Valuation costs?", "How to find absent owners?", "Commonhold vs Leasehold", "Letter for neighbors"]

  predicate IsUserTurn(m: Message) {
    m.role == User
  }

  /** The number of user turns in a transcript. */
  function UserTurns(ms: seq<Message>): nat {
    |Filter(ms, IsUserTurn)|
  }

  /** `transcript.map(m => ({ parts: [{ text: m.content }] }))`. */
  function ToContents(ms: seq<Message>): (cs: seq<Content>)
    ensures |cs| == |ms|
    ensures forall i :: 0 <= i < |ms| ==> cs[i] == Content([Part(ms[i].content)])
  {
    if ms == [] then [] else [Content([Part(ms[0].content)])] + ToContents(ms[1..])
  }

  /** `response.text || fallback`: the reply text, unless it is absent or empty. */
  function ReplyText(reply: Option<string>): (t: string)
    ensures t != ""
    ensures reply.Some? && reply.value != "" ==> t == reply.value
    ensures reply == None || reply == Some("") ==> t == FallbackReply
  {
    match reply
    case Some(text) => if text != "" then text else FallbackReply
    case None => FallbackReply
  }

  /** Adding a turn at the end adds one user turn exactly when it is a user turn. */
  lemma UserTurnsSnoc(ms: seq<Message>, m: Message)
    ensures UserTurns(ms + [m]) == UserTurns(ms) + (if m.role == User then 1 else 0)
  {
    FilterSnoc(ms, m, IsUserTurn);
  }

  /** Building the outbound list of a longer transcript extends the shorter one's. */
  lemma ToContentsAppend(a: seq<Message>, b: seq<Message>)
    ensures ToContents(a + b) == ToContents(a) + ToContents(b)
  {
    var l, r := ToContents(a + b), ToContents(a) + ToContents(b);
    assert |l| == |r|;
    forall i | 0 <= i < |l|
      ensures l[i] == r[i]
    {
      if i < |a| {
        assert (a + b)[i] == a[i];
      } else {
        assert (a + b)[i] == b[i - |a|];
      }
    }
  }

  /** The state of one chat panel. */
  class ChatSession {
    var messages: seq<Message>
    var input: string
    var isLoading: bool
    /** Calls issued and not yet resolved (bookkeeping of the model, not a field of the source). */
    ghost var inFlight: nat

    /**
     * The transcript opens with an assistant turn (the greeting, which the
     * methods keep since they only append); the panel is busy only with a
     * call outstanding; and every resolved call has added exactly two turns,
     * one user turn and one assistant turn, after the greeting.
     */
    ghost predicate Valid()
      reads this
    {
      && |messages| >= 1
      && messages[0].role == Assistant
      && (inFlight == 0 ==> !isLoading)
      && 2 * UserTurns(messages) == |messages| - 1 + inFlight
    }

    /** The state on mount: the greeting alone, an empty buffer, not busy. */
    constructor ()
      ensures Valid()
      ensures messages == [Message(Assistant, Greeting)] && input == "" && !isLoading
      ensures inFlight == 0
    {
      messages := [Message(Assistant, Greeting)];
      input := "";
      isLoading := false;
      inFlight := 0;
      assert Filter([Message(Assistant, Greeting)], IsUserTurn) == [] by {
        FilterSnoc([], Message(Assistant, Greeting), IsUserTurn);
      }
    }

    /** The text field's `onChange`. */
    method SetInput(text: string)
      requires Valid()
      modifies this`input
      ensures Valid()
      ensures input == text
    {
      input := text;
    }

    /** A suggestion button: fills the buffer with the canned prompt without sending it. */
    method SelectSuggestion(i: nat)
      requires Valid()
      requires i < |Suggestions|
      modifies this`input
      ensures Valid()
      ensures input == Suggestions[i]
    {
      input := Suggestions[i];
    }

    /**
     * `handleSendMessage` up to the outbound call. A blank buffer changes
     * nothing and sends nothing. Otherwise the untrimmed text is appended as
     * a user turn, the buffer is cleared, the panel turns busy, and the whole
     * transcript including the new turn is sent, as text parts in order.
     */
    method Submit() returns (request: Option<seq<Content>>)
      requires Valid()
      modifies this
      ensures Valid()
      ensures IsBlank(old(input)) ==>
        && request == None
        && messages == old(messages) && input == old(input) && isLoading == old(isLoading)
        && inFlight == old(inFlight)
      ensures !IsBlank(old(input)) ==>
        && messages == old(messages) + [Message(User, old(input))]
        && input == "" && isLoading
        && inFlight == old(inFlight) + 1
        && request == Some(ToContents(old(messages) + [Message(User, old(input))]))
    {
      if Trim(input) == [] {
        request := None;
      } else {
        var userMessage := Message(User, input);
        UserTurnsSnoc(messages, userMessage);
        messages := messages + [userMessage];
        input := "";
        isLoading := true;
        inFlight := inFlight + 1;
        request := Some(ToContents(messages));
      }
    }

    /** The Ask button, which is disabled while the panel is busy. */
    method ClickAsk() returns (request: Option<seq<Content>>)
      requires Valid()
      modifies this
      ensures Valid()
      ensures old(isLoading) ==>
        && request == None
        && messages == old(messages) && input == old(input) && isLoading
        && inFlight == old(inFlight)
      ensures !old(isLoading) ==>
        if IsBlank(old(input)) then
          && request == None
          && messages == old(messages) && input == old(input) && !isLoading
          && inFlight == old(inFlight)
        else
          && messages == old(messages) + [Message(User, old(input))]
          && input == "" && isLoading
          && inFlight == old(inFlight) + 1
          && request == Some(ToContents(old(messages) + [Message(User, old(input))]))
    {
      if isLoading {
        return None;
      }
      request := Submit();
    }

    /** The text field's `onKeyPress`: Enter sends, busy or not; any other key does nothing. */
    method PressKey(key: string) returns (request: Option<seq<Content>>)
      requires Valid()
      modifies this
      ensures Valid()
      ensures key != "Enter" ==>
        && request == None
        && messages == old(messages) && input == old(input) && isLoading == old(isLoading)
        && inFlight == old(inFlight)
      ensures key == "Enter" && !IsBlank(old(input)) ==>
        && messages == old(messages) + [Message(User, old(input))]
        && input == "" && isLoading
        && inFlight == old(inFlight) + 1
        && request == Some(ToContents(old(messages) + [Message(User, old(input))]))
      ensures key == "Enter" && IsBlank(old(input)) ==>
        && request == None
        && messages == old(messages) && input == old(input) && isLoading == old(isLoading)
        && inFlight == old(inFlight)
    {
      if key == "Enter" {
        request := Submit();
      } else {
        request := None;
      }
    }

    /** The call returned: its text, or the fallback when it has none, becomes an assistant turn. */
    method CompleteOk(reply: Option<string>)
      requires Valid()
      requires inFlight > 0
      modifies this
      ensures Valid()
      ensures messages == old(messages) + [Message(Assistant, ReplyText(reply))]
      ensures input == old(input) && !isLoading
      ensures inFlight == old(inFlight) - 1
    {
      var reply := Message(Assistant, ReplyText(reply));
      UserTurnsSnoc(messages, reply);
      messages := messages + [reply];
      isLoading := false;
      inFlight := inFlight - 1;
    }

    /** The call threw: the fixed apology becomes an assistant turn. */
    method CompleteErr()
      requires Valid()
      requires inFlight > 0
      modifies this
      ensures Valid()
      ensures messages == old(messages) + [Message(Assistant, ConnectionApology)]
      ensures input == old(input) && !isLoading
      ensures inFlight == old(inFlight) - 1
    {
      var apology := Message(Assistant, ConnectionApology);
      UserTurnsSnoc(messages, apology);
      messages := messages + [apology];
      isLoading := false;
      inFlight := inFlight - 1;
    }
  }

  /** One question through the Ask button, answered by the model: three turns, and the greeting sent first. */
  method AskAndAnswer(question: string, reply: Option<string>)
    returns (request: Option<seq<Content>>, transcript: seq<Message>, busy: bool)
    requires !IsBlank(question)
    ensures request == Some([Content([Part(Greeting)]), Content([Part(question)])])
    ensures transcript == [Message(Assistant, Greeting), Message(User, question), Message(Assistant, ReplyText(reply))]
    ensures !busy
  {
    var session := new ChatSession();
    session.SetInput(question);
    request := session.ClickAsk();
    var sent := [Message(Assistant, Greeting), Message(User, question)];
    assert session.messages == sent;
    assert ToContents(sent) == [Content([Part(Greeting)]), Content([Part(question)])];
    session.CompleteOk(reply);
    transcript, busy := session.messages, session.isLoading;
  }

  /** A suggestion asked on an idle panel and the call failing: the prompt and the apology close the exchange. */
  method SuggestionThenFailure(session: ChatSession, i: nat)
    requires session.Valid() && !session.isLoading
    requires i < |Suggestions|
    modifies session
    ensures session.Valid() && !session.isLoading
    ensures session.messages == old(session.messages) + [Message(User, Suggestions[i]), Message(Assistant, ConnectionApology)]
    ensures session.input == "" && session.inFlight == old(session.inFlight)
  {
    session.SelectSuggestion(i);
    SuggestionsSendable();
    var request := session.ClickAsk();
    session.CompleteErr();
  }

  /** Every suggestion has a character that is not white space, so each one can be sent. */
  lemma SuggestionsSendable()
    ensures forall i :: 0 <= i < |Suggestions| ==> !IsBlank(Suggestions[i])
  {
    forall i | 0 <= i < |Suggestions|
      ensures !IsBlank(Suggestions[i])
    {
      assert !IsWhiteSpace(Suggestions[i][0]);
    }
  }

  /**
   * While a call is outstanding the Ask button sends nothing, but Enter
   * still sends the next question, with the whole transcript so far.
   */
  method EnterWhileBusy(session: ChatSession, next: string)
    returns (clicked: Option<seq<Content>>, entered: Option<seq<Content>>)
    requires session.Valid() && session.isLoading && !IsBlank(next)
    modifies session
    ensures session.Valid()
    ensures clicked == None
    ensures session.messages == old(session.messages) + [Message(User, next)]
    ensures entered == Some(ToContents(session.messages))
    ensures session.input == "" && session.isLoading && session.inFlight == old(session.inFlight) + 1
  {
    session.SetInput(next);
    clicked := session.ClickAsk();
    entered := session.PressKey("Enter");
  }
}
