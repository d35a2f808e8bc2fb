/**
 * simplemind/conversation.py: a conversation history kept around a chat
 * client.  The client's `message(message_history=..., **kwargs)` call is
 * the oracle `ChatClient`.
 */
module ClientConversation {
  import opened Wrappers
  import opened Python

  /** One `{"role": role, "content": message}` entry of the history. */
  datatype Turn = Turn(role: string, content: Value)

  /** The client's response, seen through its `text` attribute. */
  datatype ChatResponse = ChatResponse(text: Value)

  /** `client.message(message_history=..., **kwargs)`. */
  type ChatClient = (seq<Turn>, map<string, Value>) -> Result<ChatResponse, Error>

  /** The history the client receives: a truthy message is appended as a user turn first. */
  function SentHistory(history: seq<Turn>, message: Value): (h: seq<Turn>)
    ensures Truthy(message) ==> h == history + [Turn("user", message)]
    ensures !Truthy(message) ==> h == history
  {
    if Truthy(message) then history + [Turn("user", message)] else history
  }

  /** What `send` asks of the client: the duplicate-keyword check, then the call. */
  function Ask(client: ChatClient, history: seq<Turn>, kwargs: map<string, Value>): (r: Result<ChatResponse, Error>)
    ensures "message_history" in kwargs ==> r.Failure? && r.error.kind == TypeError
    ensures "message_history" !in kwargs ==> r == client(history, kwargs)
  {
    match KeywordConflict("message", kwargs, ["message_history"])
    case Some(e) => Failure(e)
    case None => client(history, kwargs)
  }

  /** The history after `send`: an assistant turn is added iff the response's text is a str. */
  function AfterSend(history: seq<Turn>, message: Value, response: Result<ChatResponse, Error>): (h: seq<Turn>)
    ensures SentHistory(history, message) <= h
    ensures history <= h
    ensures |h| <= |history| + 2
    ensures |h| == |SentHistory(history, message)| + 1 <==> response.Success? && response.value.text.PyStr?
    ensures |h| > |SentHistory(history, message)| ==>
              response.Success? && h[|h| - 1] == Turn("assistant", response.value.text)
  {
    var sent := SentHistory(history, message);
    if response.Success? && response.value.text.PyStr? then sent + [Turn("assistant", response.value.text)] else sent
  }

  /** Conversation: a client and the history it has been sent. */
  class Conversation {
    const client: ChatClient
    var messages: seq<Turn>

    /** A new conversation starts with an empty history. */
    constructor (client: ChatClient)
      ensures this.client == client && messages == []
    {
      this.client := client;
      messages := [];
    }

    /** add_message: one entry at the end, with role "user" unless given; returns the conversation. */
    method AddMessage(message: Value, role: string := "user") returns (self: Conversation)
      modifies this
      ensures messages == old(messages) + [Turn(role, message)]
      ensures self == this
    {
      messages := messages + [Turn(role, message)];
      self := this;
    }

    /** send: the optional user turn, the client call on the whole history, and the assistant turn. */
    method Send(message: Value, kwargs: map<string, Value>) returns (r: Result<ChatResponse, Error>)
      modifies this
      ensures r == Ask(client, SentHistory(old(messages), message), kwargs)
      ensures messages == AfterSend(old(messages), message, r)
    {
      if Truthy(message) {
        var _ := AddMessage(message);
      }
      r := Ask(client, messages, kwargs);
      if r.Success? && r.value.text.PyStr? {
        var _ := AddMessage(r.value.text, "assistant");
      }
    }
  }

  /**
   * Two sends in a row keep every earlier entry in place: the history only
   * ever grows at the end, by at most two entries per send.
   */
  lemma {:induction false} HistoryOnlyGrows(history: seq<Turn>, m1: Value, r1: Result<ChatResponse, Error>, m2: Value, r2: Result<ChatResponse, Error>)
    ensures var h1 := AfterSend(history, m1, r1);
      var h2 := AfterSend(h1, m2, r2);
      && history <= h1 <= h2
      && |h2| <= |history| + 4
      && forall i :: 0 <= i < |history| ==> h2[i] == history[i]
  {
    var h1 := AfterSend(history, m1, r1);
    var h2 := AfterSend(h1, m2, r2);
    assert history <= h2;
  }
}
