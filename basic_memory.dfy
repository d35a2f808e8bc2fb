/**
 * simplemind/plugins/basic_memory.py: a plugin that remembers every message
 * it is given.  Its `execute` ignores the context argument, so the model
 * leaves it out; its constructor does not run BasePlugin's, so it has no
 * enabled flag.
 */
module BasicMemory {
  import opened Python

  /** The memory after remembering `messages` one call at a time. */
  function MemoryAfter(init: seq<Value>, messages: seq<Value>): (r: seq<Value>)
    decreases |messages|
  {
    if messages == [] then init else MemoryAfter(init + [messages[0]], messages[1..])
  }

  /** The memory holds the earlier entries, then the messages in call order. */
  lemma {:induction false} MemoryKeepsCallOrder(init: seq<Value>, messages: seq<Value>)
    ensures MemoryAfter(init, messages) == init + messages
    ensures |MemoryAfter(init, messages)| == |init| + |messages|
    decreases |messages|
  {
    if messages != [] {
      MemoryKeepsCallOrder(init + [messages[0]], messages[1..]);
      assert init + [messages[0]] + messages[1..] == init + messages;
    }
  }

  /** BasicMemoryPlugin: the `memory` list. */
  class BasicMemoryPlugin {
    var memory: seq<Value>

    /** Memory starts empty. */
    constructor ()
      ensures memory == []
    {
      memory := [];
    }

    /** execute: the message goes at the end; the memory after the append is returned. */
    method Execute(message: Value) returns (r: seq<Value>)
      modifies this
      ensures memory == MemoryAfter(old(memory), [message])
      ensures memory == old(memory) + [message]
      ensures r == memory
    {
      memory := memory + [message];
      r := memory;
    }
  }
}
