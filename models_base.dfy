/**
 * simplemind/models/base.py: the model package's message and conversation
 * records.  The timestamps are not modelled.
 */
module ModelsBase {
  import opened Python

  datatype Message = Message(role: string, content: string)

  /** Conversation: an id, its message history and a free-form context dict. */
  class Conversation {
    const id: string
    var messages: seq<Message>
    var context: map<string, Value>

    /** By default a new conversation has no messages and an empty context. */
    constructor (id: string)
      ensures this.id == id && messages == [] && context == map[]
    {
      this.id := id;
      messages := [];
      context := map[];
    }

    /** add_message: one new message at the end, which is also returned; the context is untouched. */
    method AddMessage(role: string, content: string) returns (m: Message)
      modifies this
      ensures m == Message(role, content)
      ensures messages == old(messages) + [m]
      ensures context == old(context)
    {
      m := Message(role, content);
      messages := messages + [m];
    }
  }
}
