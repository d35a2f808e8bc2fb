/**
 * simplemind/core/models.py: requests, responses and the conversation
 * record of the core package.  The `created_at`/`updated_at` timestamps are
 * not modelled.
 */
module CoreModels {
  import opened Wrappers
  import opened Python

  /** AIRequest: the prompt text and free-form parameters. */
  datatype AIRequest = AIRequest(text: string, parameters: map<string, Value>) {
    /** `str(request)` is the request's text, whatever its parameters. */
    function ToString(): (r: string)
      ensures r == text
    {
      text
    }
  }

  /** Message: a role ("user", "assistant", "system") and its content. */
  datatype Message = Message(role: string, content: string)

  datatype Choice = Choice(message: Message, index: int)

  /** AIResponse: the choices a model returned. */
  datatype AIResponse = AIResponse(choices: seq<Choice>) {
    /** AIResponse.content: the first choice's message content, or IndexError when there is none. */
    function Content(): (r: Result<string, Error>)
      ensures r.Success? <==> |choices| > 0
      ensures r.Success? ==> r.value == choices[0].message.content
      ensures r.Failure? ==> r.error == Error(IndexError, "list index out of range")
    {
      if |choices| == 0 then Failure(Error(IndexError, "list index out of range"))
      else Success(choices[0].message.content)
    }
  }

  /** Conversation: an id and its message history. */
  class Conversation {
    const id: string
    var messages: seq<Message>

    /** A new conversation has no messages. */
    constructor (id: string)
      ensures this.id == id && messages == []
    {
      this.id := id;
      messages := [];
    }

    /** get_messages: the history itself. */
    function GetMessages(): (r: seq<Message>)
      reads this
      ensures r == messages
    {
      messages
    }

    /** add_message: one new message at the end, which is also returned. */
    method AddMessage(role: string, content: string) returns (m: Message)
      modifies this
      ensures m == Message(role, content)
      ensures messages == old(messages) + [m]
      ensures |messages| == |old(messages)| + 1 && messages[|messages| - 1] == m
    {
      m := Message(role, content);
      messages := messages + [m];
    }
  }
}
