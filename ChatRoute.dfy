/** The chat endpoint's history sanitiser: before the history is handed to
    the model, assistant turns that carry parts (tool calls) but no text
    are dropped, since they are incomplete tool calls. */
module ChatRoute {
  import opened Prelude

  /** One part of a message (text, tool invocation, ...), kept opaque. */
  datatype MessagePart = MessagePart(kind: string)

  /** A chat message: `parts` may be absent. */
  datatype Message = Message(role: string, content: string, parts: Option<seq<MessagePart>>)

  /** An assistant turn with a non-empty parts list and empty content. */
  predicate Incomplete(m: Message) {
    m.role == "assistant" && m.parts.Some? && |m.parts.value| > 0 && m.content == ""
  }

  /** `sanitizeMessages`: keep every message that is not incomplete. */
  function Sanitize(messages: seq<Message>): seq<Message>
    decreases |messages|
  {
    if |messages| == 0 then []
    else if Incomplete(messages[0]) then Sanitize(messages[1..])
    else [messages[0]] + Sanitize(messages[1..])
  }

  /** No incomplete assistant turn survives, and every other message does:
      a message is in the output exactly when it is in the input and is not
      incomplete. */
  lemma {:induction false} SanitizeMembership(messages: seq<Message>)
    ensures forall m :: m in Sanitize(messages) <==> m in messages && !Incomplete(m)
    decreases |messages|
  {
    if |messages| > 0 {
      SanitizeMembership(messages[1..]);
      assert messages == [messages[0]] + messages[1..];
    }
  }

  /** The output keeps the input's order: it is a subsequence of it, hence
      no longer. */
  lemma {:induction false} SanitizeSubsequence(messages: seq<Message>)
    ensures IsSubsequence(Sanitize(messages), messages)
    ensures |Sanitize(messages)| <= |messages|
    decreases |messages|
  {
    if |messages| > 0 {
      SanitizeSubsequence(messages[1..]);
      SubsequenceCons(messages[0], Sanitize(messages[1..]), messages[1..]);
      assert messages == [messages[0]] + messages[1..];
    }
    SubsequenceLength(Sanitize(messages), messages);
  }

  /** A history with no incomplete turn (for instance any user or system
      message, or an assistant message whose parts are absent or empty,
      even with empty content) passes unchanged. */
  lemma {:induction false} SanitizeKeepsComplete(messages: seq<Message>)
    requires forall i :: 0 <= i < |messages| ==> !Incomplete(messages[i])
    ensures Sanitize(messages) == messages
    decreases |messages|
  {
    if |messages| > 0 {
      SanitizeKeepsComplete(messages[1..]);
      assert messages == [messages[0]] + messages[1..];
    }
  }

  /** Sanitising twice is sanitising once. */
  lemma {:induction false} SanitizeIdempotent(messages: seq<Message>)
    ensures Sanitize(Sanitize(messages)) == Sanitize(messages)
  {
    var s := Sanitize(messages);
    SanitizeMembership(messages);
    forall i | 0 <= i < |s| ensures !Incomplete(s[i]) {
      assert s[i] in s;
    }
    SanitizeKeepsComplete(s);
  }
}
