/**
 * The chat panel of the flat application. It differs from the nested one in
 * how a send fills the list: the empty bot message is appended only once
 * the stream has been obtained, and an error is appended as a further
 * message instead of replacing the last one. Its bubbles only turn line
 * feeds into `<br />`.
 */
module FlatChatbot {
  import opened Wrappers
  import opened Strings
  import Chatbot

  datatype Message = Message(sender: Chatbot.Sender, text: string)

  const ERROR_MESSAGE: Message := Message(Chatbot.Bot, Chatbot.ERROR_TEXT)

  /** The list after the empty bot message was appended to `base` and `k` chunks arrived. */
  function StreamingList(base: seq<Message>, chunks: seq<string>, k: nat): seq<Message>
    requires k <= |chunks|
  {
    base + [Message(Chatbot.Bot, Concat(chunks[..k]))]
  }

  /** The list a send with `text` leaves behind. */
  function SendResult(prev: seq<Message>, text: string, hasSession: bool, reply: Chatbot.StreamReply): seq<Message> {
    var base := prev + [Message(Chatbot.User, text)];
    if !hasSession || reply.Rejected? then base + [ERROR_MESSAGE]
    else StreamingList(base, reply.chunks, |reply.chunks|) + (if reply.failsAfter then [ERROR_MESSAGE] else [])
  }

  /**
   * A send keeps the earlier messages and appends the user's message first;
   * what follows is one error message when no stream was obtained, otherwise
   * the bot's reply and, if the stream failed, one error message after it.
   */
  lemma SendAppends(prev: seq<Message>, text: string, hasSession: bool, reply: Chatbot.StreamReply)
    ensures var r := SendResult(prev, text, hasSession, reply);
      var streamed := hasSession && reply.Streamed?;
      |r| == |prev| + (if streamed && reply.failsAfter then 3 else 2)
      && r[..|prev|] == prev && r[|prev|] == Message(Chatbot.User, text)
      && (!streamed ==> r[|prev| + 1] == ERROR_MESSAGE)
      && (streamed ==> r[|prev| + 1] == Message(Chatbot.Bot, Concat(reply.chunks)))
      && (streamed && reply.failsAfter ==> r[|prev| + 2] == ERROR_MESSAGE)
  {
    var r := SendResult(prev, text, hasSession, reply);
    assert r[..|prev|] == prev;
    if hasSession && reply.Streamed? {
      assert reply.chunks[..|reply.chunks|] == reply.chunks;
    }
  }

  /**
   * During streaming only the bot message changes, and its text after `k`
   * chunks is a prefix of its text after any later chunk `m`.
   */
  lemma StreamingIsPrefixMonotone(base: seq<Message>, chunks: seq<string>, k: nat, m: nat)
    requires k <= m <= |chunks|
    ensures var a, b := StreamingList(base, chunks, k), StreamingList(base, chunks, m);
      |a| == |b| == |base| + 1 && a[..|base|] == b[..|base|] == base
      && |a[|base|].text| <= |b[|base|].text| && b[|base|].text[..|a[|base|].text|] == a[|base|].text
  {
    ConcatPrefix(chunks, k, m);
    var a, b := StreamingList(base, chunks, k), StreamingList(base, chunks, m);
    assert a[..|base|] == base && b[..|base|] == base;
  }

  /** A failure after streaming began keeps the partial reply and puts the error after it. */
  lemma StreamFailureKeepsPartial(prev: seq<Message>, text: string, chunks: seq<string>)
    ensures var r := SendResult(prev, text, true, Chatbot.Streamed(chunks, true));
      var ok := SendResult(prev, text, true, Chatbot.Streamed(chunks, false));
      r == ok + [ERROR_MESSAGE]
  {
  }

  // ---------------------------------------------------------------------------
  // Rendering a bubble

  /** The bubble's HTML: each line feed becomes `<br />`, nothing else is touched. */
  function RenderText(text: string): (html: string)
    ensures '\n' !in html
  {
    ReplaceChar(text, '\n', "<br />")
  }

  /** Each line feed grows the text by the five extra characters of `<br />`. */
  lemma RenderTextLength(text: string)
    ensures |RenderText(text)| == |text| + 5 * Count('\n', text)
  {
    ReplaceCharLength(text, '\n', "<br />");
  }

  /** Without a line feed the text is rendered as it is, markup included. */
  lemma RenderTextPlain(text: string)
    requires '\n' !in text
    ensures RenderText(text) == text
  {
    ReplaceCharAbsent(text, '\n', "<br />");
  }

  /** Rendering works line by line: the render of two texts is the render of each, joined. */
  lemma RenderTextAppend(a: string, b: string)
    ensures RenderText(a + b) == RenderText(a) + RenderText(b)
  {
    ReplaceCharAppend(a, b, '\n', "<br />");
  }

  /** The typing indicator sits under the last message while loading, when that message is the bot's. */
  predicate ShowsTypingIndicator(isLoading: bool, messages: seq<Message>, index: nat)
    requires index < |messages|
  {
    isLoading && messages[index].sender == Chatbot.Bot && index == |messages| - 1
  }

  /** While the stream is awaited the user's message is last, so no indicator shows. */
  lemma NoIndicatorBeforeStream(prev: seq<Message>, text: string, index: nat)
    requires index < |prev| + 1
    ensures !ShowsTypingIndicator(true, prev + [Message(Chatbot.User, text)], index)
  {
  }

  /** While chunks arrive the indicator shows under the bot message and nowhere else. */
  lemma IndicatorWhileStreaming(base: seq<Message>, chunks: seq<string>, k: nat, index: nat)
    requires k <= |chunks| && index <= |base|
    ensures ShowsTypingIndicator(true, StreamingList(base, chunks, k), index) <==> index == |base|
  {
  }

  // ---------------------------------------------------------------------------
  // The component state

  class FlatChatbot {
    var isOpen: bool
    var messages: seq<Message>
    var input: string
    var isLoading: bool
    var session: Option<Chatbot.Session>

    constructor()
      ensures !isOpen && messages == [] && input == "" && !isLoading && session == None
    {
      isOpen := false;
      messages := [];
      input := "";
      isLoading := false;
      session := None;
    }

    /** `initializeChat`: with an API key, open a session and reset the list to the greeting. */
    method InitializeChat(apiKeyPresent: bool)
      modifies this
      ensures apiKeyPresent ==>
        session == Some(Chatbot.Session(Chatbot.CHAT_MODEL)) && messages == [Message(Chatbot.Bot, Chatbot.GREETING)]
      ensures !apiKeyPresent ==> session == old(session) && messages == old(messages)
      ensures isOpen == old(isOpen) && input == old(input) && isLoading == old(isLoading)
    {
      if apiKeyPresent {
        session := Some(Chatbot.Session(Chatbot.CHAT_MODEL));
        messages := [Message(Chatbot.Bot, Chatbot.GREETING)];
      }
    }

    /** The effect on `isOpen`: initialise only while the panel is open and no session exists. */
    method OpenEffect(apiKeyPresent: bool)
      modifies this
      ensures old(isOpen) && old(session).None? && apiKeyPresent ==>
        session == Some(Chatbot.Session(Chatbot.CHAT_MODEL)) && messages == [Message(Chatbot.Bot, Chatbot.GREETING)]
      ensures !(old(isOpen) && old(session).None? && apiKeyPresent) ==>
        session == old(session) && messages == old(messages)
      ensures isOpen == old(isOpen) && input == old(input) && isLoading == old(isLoading)
    {
      if isOpen && session.None? {
        InitializeChat(apiKeyPresent);
      }
    }

    /** The round button flips the panel; the effect then runs. */
    method Toggle(apiKeyPresent: bool)
      modifies this
      ensures isOpen == !old(isOpen)
      ensures isOpen && old(session).None? && apiKeyPresent ==>
        session == Some(Chatbot.Session(Chatbot.CHAT_MODEL)) && messages == [Message(Chatbot.Bot, Chatbot.GREETING)]
      ensures !(isOpen && old(session).None? && apiKeyPresent) ==>
        session == old(session) && messages == old(messages)
      ensures input == old(input) && isLoading == old(isLoading)
    {
      isOpen := !isOpen;
      OpenEffect(apiKeyPresent);
    }

    /** The close button in the header; closing never initialises. */
    method Close()
      modifies this
      ensures !isOpen
      ensures messages == old(messages) && input == old(input) && isLoading == old(isLoading)
      ensures session == old(session)
    {
      isOpen := false;
    }

    /** Typing into the input box. */
    method SetInput(text: string)
      modifies this
      ensures input == text
      ensures isOpen == old(isOpen) && messages == old(messages) && isLoading == old(isLoading)
      ensures session == old(session)
    {
      input := text;
    }

    /**
     * `handleSendMessage`. A blank input or a send in flight changes nothing.
     * Otherwise the list becomes `SendResult` of the old list and input, the
     * input is cleared and loading ends.
     */
    method SendMessage(reply: Chatbot.StreamReply)
      modifies this
      ensures old(Chatbot.IsBlank(input)) || old(isLoading) ==>
        messages == old(messages) && input == old(input) && isLoading == old(isLoading)
      ensures !(old(Chatbot.IsBlank(input)) || old(isLoading)) ==>
        messages == SendResult(old(messages), old(input), old(session).Some?, reply)
        && input == "" && !isLoading
      ensures isOpen == old(isOpen) && session == old(session)
    {
      if Chatbot.IsBlank(input) || isLoading {
        return;
      }
      var text := input;
      messages := messages + [Message(Chatbot.User, text)];
      input := "";
      isLoading := true;
      var base := messages;
      if session.None? || reply.Rejected? {
        messages := messages + [ERROR_MESSAGE];
      } else {
        var chunks := reply.chunks;
        var botResponse := "";
        messages := messages + [Message(Chatbot.Bot, "")];
        var i := 0;
        while i < |chunks|
          invariant 0 <= i <= |chunks|
          invariant botResponse == Concat(chunks[..i])
          invariant messages == StreamingList(base, chunks, i)
          invariant isOpen == old(isOpen) && session == old(session) && input == "" && isLoading
        {
          assert chunks[..i + 1] == chunks[..i] + [chunks[i]];
          ConcatAppend(chunks[..i], chunks[i]);
          botResponse := botResponse + chunks[i];
          var last := messages[|messages| - 1];
          Chatbot.ReplaceLast(base, last, last.(text := botResponse));
          messages := messages[|messages| - 1 := last.(text := botResponse)];
          i := i + 1;
        }
        if reply.failsAfter {
          messages := messages + [ERROR_MESSAGE];
        }
      }
      isLoading := false;
    }
  }
}
