/**
 * The chat panel of the nested-plan application: its open flag, the message
 * list, the input box, the in-flight flag and the chat session. A send
 * appends the user's message and a loading placeholder, then fills the
 * placeholder from the streamed chunks, or replaces it with an error bubble.
 *
 * The SDK is not modelled: whether an API key is configured is a parameter,
 * and what `sendMessageStream` yields is a `StreamReply` chosen by the caller.
 */
module Chatbot {
  import opened Wrappers
  import opened Strings
  import ChatMarkdown

  datatype Sender = User | Bot

  /** A bubble; `isLoading` is the placeholder's flag, false on every other message. */
  datatype Message = Message(sender: Sender, text: string, isLoading: bool)

  const GREETING: string := "Hello! I'm Cosmo, your guide to the universe of Toyota finance. How can I help you today?"
  const ERROR_TEXT: string := "An error occurred in the cosmos. Please try again."
  const CHAT_MODEL: string := "gemini-2.5-flash"

  /** A chat session created by the SDK; only the model it was created for is visible. */
  datatype Session = Session(model: string)

  /**
   * What `sendMessageStream` does: it rejects before any chunk, or it yields
   * `chunks` and then either ends or throws.
   */
  datatype StreamReply = Rejected | Streamed(chunks: seq<string>, failsAfter: bool)

  const PLACEHOLDER: Message := Message(Bot, "", true)
  const ERROR_MESSAGE: Message := Message(Bot, ERROR_TEXT, false)

  /** The input holds nothing but JavaScript white space. */
  predicate IsBlank(input: string) {
    forall k :: 0 <= k < |input| ==> IsJsWhitespace(input[k])
  }

  /** `!input.trim()`: the input is blank exactly when trimming leaves the empty string. */
  lemma BlankIffTrimEmpty(input: string)
    ensures IsBlank(input) <==> Trim(input) == ""
  {
    TrimEmptyIff(input);
  }

  // ---------------------------------------------------------------------------
  // The message list during and after a send

  /**
   * The list after `k` chunks of a send whose list before the placeholder is
   * `base`: the placeholder until the first chunk, then a settled bot message
   * holding the chunks so far.
   */
  function StreamingList(base: seq<Message>, chunks: seq<string>, k: nat): seq<Message>
    requires k <= |chunks|
  {
    base + [LastAfter(chunks, k)]
  }

  /** The bot bubble after `k` chunks. */
  function LastAfter(chunks: seq<string>, k: nat): Message
    requires k <= |chunks|
  {
    if k == 0 then PLACEHOLDER else Message(Bot, Concat(chunks[..k]), false)
  }

  /** The list a send with `text` leaves behind. */
  function SendResult(prev: seq<Message>, text: string, hasSession: bool, reply: StreamReply): seq<Message> {
    var base := prev + [Message(User, text, false)];
    if !hasSession || reply.Rejected? || reply.failsAfter then base + [ERROR_MESSAGE]
    else StreamingList(base, reply.chunks, |reply.chunks|)
  }

  /** A send adds exactly two messages after the earlier ones, the first the user's own. */
  lemma SendAddsTwo(prev: seq<Message>, text: string, hasSession: bool, reply: StreamReply)
    ensures var r := SendResult(prev, text, hasSession, reply);
      |r| == |prev| + 2 && r[..|prev|] == prev && r[|prev|] == Message(User, text, false)
      && r[|prev| + 1].sender == Bot
  {
    var r := SendResult(prev, text, hasSession, reply);
    assert r[..|prev|] == prev;
  }

  /**
   * During streaming only the last message changes, and its text after `k`
   * chunks is a prefix of its text after any later chunk `m`.
   */
  lemma StreamingIsPrefixMonotone(base: seq<Message>, chunks: seq<string>, k: nat, m: nat)
    requires 1 <= k <= m <= |chunks|
    ensures var a, b := StreamingList(base, chunks, k), StreamingList(base, chunks, m);
      |a| == |b| == |base| + 1 && a[..|base|] == b[..|base|] == base
      && |a[|base|].text| <= |b[|base|].text| && b[|base|].text[..|a[|base|].text|] == a[|base|].text
  {
    ConcatPrefix(chunks, k, m);
    var a, b := StreamingList(base, chunks, k), StreamingList(base, chunks, m);
    assert a[..|base|] == base && b[..|base|] == base;
  }

  /** The placeholder loads until the first chunk, which settles it; later chunks keep it settled. */
  lemma FirstChunkClearsLoading(base: seq<Message>, chunks: seq<string>, k: nat)
    requires k <= |chunks|
    ensures var last := StreamingList(base, chunks, k)[|base|];
      last.sender == Bot && (last.isLoading <==> k == 0) && (k == 0 ==> last.text == "")
  {
  }

  /** On any failure only the last message differs from a successful stream, and it is the error bubble. */
  lemma FailureReplacesLast(prev: seq<Message>, text: string, hasSession: bool, reply: StreamReply, partial: nat)
    requires !hasSession || reply.Rejected? || reply.failsAfter
    requires reply.Streamed? ==> partial <= |reply.chunks|
    ensures var base := prev + [Message(User, text, false)];
      var r := SendResult(prev, text, hasSession, reply);
      var streamed := StreamingList(base, if reply.Streamed? then reply.chunks else [], if reply.Streamed? then partial else 0);
      |r| == |streamed| && r[..|base|] == streamed[..|base|] && r[|base|] == ERROR_MESSAGE
  {
    var base := prev + [Message(User, text, false)];
    var streamed := StreamingList(base, if reply.Streamed? then reply.chunks else [], if reply.Streamed? then partial else 0);
    assert streamed[..|base|] == base;
    assert SendResult(prev, text, hasSession, reply)[..|base|] == base;
  }

  /** A stream that ends without a chunk leaves the placeholder loading. */
  lemma EmptyStreamKeepsPlaceholder(prev: seq<Message>, text: string)
    ensures var r := SendResult(prev, text, true, Streamed([], false));
      r[|r| - 1] == PLACEHOLDER
  {
  }

  /** A completed stream ends with the concatenated chunks in a settled bot message. */
  lemma CompletedStreamHoldsReply(prev: seq<Message>, text: string, chunks: seq<string>)
    requires chunks != []
    ensures var r := SendResult(prev, text, true, Streamed(chunks, false));
      r[|r| - 1] == Message(Bot, Concat(chunks), false)
  {
    assert chunks[..|chunks|] == chunks;
  }

  /** Overwriting the last element of `base + [last]` leaves `base + [next]`. */
  lemma ReplaceLast<T>(base: seq<T>, last: T, next: T)
    ensures (base + [last])[|base| := next] == base + [next]
  {
  }

  // ---------------------------------------------------------------------------
  // Rendering a bubble

  datatype Bubble = TypingIndicator | Html(html: string)

  /** The body of a bubble: the typing indicator while loading, otherwise the formatted text. */
  function RenderBubble(msg: Message): (b: Bubble)
    ensures b.TypingIndicator? <==> msg.isLoading
    ensures b.Html? ==> b.html == ChatMarkdown.MarkdownToHtml(msg.text) && '\n' !in b.html
  {
    if msg.isLoading then TypingIndicator else Html(ChatMarkdown.MarkdownToHtml(msg.text))
  }

  // ---------------------------------------------------------------------------
  // The component state

  class Chatbot {
    var isOpen: bool
    var messages: seq<Message>
    var input: string
    var isApiLoading: bool
    var session: Option<Session>

    constructor()
      ensures !isOpen && messages == [] && input == "" && !isApiLoading && session == None
    {
      isOpen := false;
      messages := [];
      input := "";
      isApiLoading := false;
      session := None;
    }

    /** `initializeChat`: with an API key, open a session and reset the list to the greeting. */
    method InitializeChat(apiKeyPresent: bool)
      modifies this
      ensures apiKeyPresent ==> session == Some(Session(CHAT_MODEL)) && messages == [Message(Bot, GREETING, false)]
      ensures !apiKeyPresent ==> session == old(session) && messages == old(messages)
      ensures isOpen == old(isOpen) && input == old(input) && isApiLoading == old(isApiLoading)
    {
      if apiKeyPresent {
        session := Some(Session(CHAT_MODEL));
        messages := [Message(Bot, GREETING, false)];
      }
    }

    /** The effect on `isOpen`: initialise only while the panel is open and no session exists. */
    method OpenEffect(apiKeyPresent: bool)
      modifies this
      ensures old(isOpen) && old(session).None? && apiKeyPresent
              ==> session == Some(Session(CHAT_MODEL)) && messages == [Message(Bot, GREETING, false)]
      ensures !(old(isOpen) && old(session).None? && apiKeyPresent)
              ==> session == old(session) && messages == old(messages)
      ensures isOpen == old(isOpen) && input == old(input) && isApiLoading == old(isApiLoading)
    {
      if isOpen && session.None? {
        InitializeChat(apiKeyPresent);
      }
    }

    /** The round button flips the panel; the effect then runs. */
    method Toggle(apiKeyPresent: bool)
      modifies this
      ensures isOpen == !old(isOpen)
      ensures isOpen && old(session).None? && apiKeyPresent
              ==> session == Some(Session(CHAT_MODEL)) && messages == [Message(Bot, GREETING, false)]
      ensures !(isOpen && old(session).None? && apiKeyPresent)
              ==> session == old(session) && messages == old(messages)
      ensures input == old(input) && isApiLoading == old(isApiLoading)
    {
      isOpen := !isOpen;
      OpenEffect(apiKeyPresent);
    }

    /** The close button in the header; closing never initialises. */
    method Close()
      modifies this
      ensures !isOpen
      ensures messages == old(messages) && input == old(input) && isApiLoading == old(isApiLoading)
      ensures session == old(session)
    {
      isOpen := false;
    }

    /** Typing into the input box. */
    method SetInput(text: string)
      modifies this
      ensures input == text
      ensures isOpen == old(isOpen) && messages == old(messages) && isApiLoading == old(isApiLoading)
      ensures session == old(session)
    {
      input := text;
    }

    /**
     * `handleSendMessage`. A blank input or a send in flight changes nothing.
     * Otherwise the list becomes `SendResult` of the old list and input, the
     * input is cleared and loading ends.
     */
    method SendMessage(reply: StreamReply)
      modifies this
      ensures old(IsBlank(input)) || old(isApiLoading) ==>
        messages == old(messages) && input == old(input) && isApiLoading == old(isApiLoading)
      ensures !(old(IsBlank(input)) || old(isApiLoading)) ==>
        messages == SendResult(old(messages), old(input), old(session).Some?, reply)
        && input == "" && !isApiLoading
      ensures isOpen == old(isOpen) && session == old(session)
    {
      if IsBlank(input) || isApiLoading {
        return;
      }
      var text := input;
      var base := messages + [Message(User, text, false)];
      messages := messages + [Message(User, text, false), PLACEHOLDER];
      assert messages == base + [PLACEHOLDER];
      input := "";
      isApiLoading := true;
      if session.None? || reply.Rejected? {
        ReplaceLast(base, PLACEHOLDER, ERROR_MESSAGE);
        messages := messages[|messages| - 1 := ERROR_MESSAGE];
      } else {
        var chunks := reply.chunks;
        var botResponse := "";
        var firstChunkProcessed := false;
        var i := 0;
        while i < |chunks|
          invariant 0 <= i <= |chunks|
          invariant botResponse == Concat(chunks[..i])
          invariant firstChunkProcessed <==> i > 0
          invariant messages == StreamingList(base, chunks, i)
          invariant isOpen == old(isOpen) && session == old(session) && input == "" && isApiLoading
        {
          assert chunks[..i + 1] == chunks[..i] + [chunks[i]];
          ConcatAppend(chunks[..i], chunks[i]);
          botResponse := botResponse + chunks[i];
          var settled := Message(Bot, botResponse, false);
          ReplaceLast(base, messages[|messages| - 1], settled);
          if !firstChunkProcessed {
            messages := messages[|messages| - 1 := settled];
            firstChunkProcessed := true;
          } else {
            messages := messages[|messages| - 1 := messages[|messages| - 1].(text := botResponse)];
          }
          i := i + 1;
        }
        if reply.failsAfter {
          ReplaceLast(base, messages[|messages| - 1], ERROR_MESSAGE);
          messages := messages[|messages| - 1 := ERROR_MESSAGE];
        }
      }
      isApiLoading := false;
    }
  }
}
