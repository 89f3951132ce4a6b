/** The chat store: a history of the most recent messages, capped at 50 by
    dropping the oldest, and the action that hands a line of text to the
    network layer without touching the history. */
module ChatStore {
  import opened Common

  datatype ChatMessage = ChatMessage(id: string, sender: string, text: string, timestamp: int, isSystem: Option<bool>)

  /** What `sendMessage` passes to the network store: the message type and its payload. */
  datatype Outgoing = Outgoing(kind: string, text: string)

  const HISTORY_LIMIT: nat := 50

  /** The history after `addMessage(msg)`: push, then shift once when the length
      exceeds the cap. The result is a suffix of the pushed history ending with
      msg, one longer below the cap and of unchanged length from the cap on. */
  function Appended(messages: seq<ChatMessage>, msg: ChatMessage): (r: seq<ChatMessage>)
    ensures |r| == if |messages| < HISTORY_LIMIT then |messages| + 1 else |messages|
    ensures r == (messages + [msg])[|messages| + 1 - |r|..]
    ensures r[|r| - 1] == msg
  {
    var pushed := messages + [msg];
    if |pushed| > HISTORY_LIMIT then pushed[1..] else pushed
  }

  /** The cap is never exceeded once respected. */
  lemma AppendedBounded(messages: seq<ChatMessage>, msg: ChatMessage)
    requires |messages| <= HISTORY_LIMIT
    ensures |Appended(messages, msg)| <= HISTORY_LIMIT
  {
  }

  /** Below the cap, earlier messages stay in place; at the cap, the oldest is
      dropped and the rest keep their order. */
  lemma AppendedKeepsOrder(messages: seq<ChatMessage>, msg: ChatMessage)
    ensures |messages| < HISTORY_LIMIT ==> Appended(messages, msg) == messages + [msg]
    ensures |messages| >= HISTORY_LIMIT ==> Appended(messages, msg) == messages[1..] + [msg]
  {
    if |messages| >= HISTORY_LIMIT {
      assert (messages + [msg])[1..] == messages[1..] + [msg];
    }
  }

  /** The history after adding each message of `ms` in turn. */
  function AppendedAll(messages: seq<ChatMessage>, ms: seq<ChatMessage>): seq<ChatMessage>
    decreases |ms|
  {
    if ms == [] then messages else Appended(AppendedAll(messages, ms[..|ms| - 1]), ms[|ms| - 1])
  }

  /** The number of messages the history keeps out of n received from an empty start. */
  function Kept(n: nat): nat
  {
    if n < HISTORY_LIMIT then n else HISTORY_LIMIT
  }

  /** Starting from an empty history, the store always holds exactly the last
      (up to 50) messages received, oldest first. */
  lemma {:induction false} AppendedAllIsLastMessages(ms: seq<ChatMessage>)
    ensures AppendedAll([], ms) == ms[|ms| - Kept(|ms|)..]
    decreases |ms|
  {
    if ms != [] {
      var n := |ms|;
      var prefix, last := ms[..n - 1], ms[n - 1];
      AppendedAllIsLastMessages(prefix);
      var before := AppendedAll([], prefix);
      assert AppendedAll([], ms) == Appended(before, last);
      AppendedKeepsOrder(before, last);
      if n - 1 < HISTORY_LIMIT {
        SliceSnoc(ms, 0);
      } else {
        assert before == ms[n - 1 - HISTORY_LIMIT..n - 1];
        assert before[1..] == ms[n - HISTORY_LIMIT..n - 1];
        SliceSnoc(ms, n - HISTORY_LIMIT);
      }
    }
  }

  lemma SliceSnoc(ms: seq<ChatMessage>, i: nat)
    requires i < |ms|
    ensures ms[i..|ms| - 1] + [ms[|ms| - 1]] == ms[i..]
  {
  }

  class ChatStore {
    var messages: seq<ChatMessage>

    ghost predicate Valid()
      reads this
    {
      |messages| <= HISTORY_LIMIT
    }

    constructor ()
      ensures messages == [] && Valid()
    {
      messages := [];
    }

    /** `addMessage`: appends, and keeps the history within the cap. */
    method AddMessage(msg: ChatMessage)
      modifies this
      ensures messages == Appended(old(messages), msg)
      ensures old(Valid()) ==> Valid()
    {
      messages := messages + [msg];
      if |messages| > HISTORY_LIMIT {
        messages := messages[1..];
      }
    }

    /** `sendMessage`: only the text goes out, as a PLAYER_CHAT message; the
        history waits for the server's echo. */
    method SendMessage(text: string) returns (out: Outgoing)
      ensures out == Outgoing("PLAYER_CHAT", text)
      ensures messages == old(messages)
    {
      out := Outgoing("PLAYER_CHAT", text);
    }
  }
}
