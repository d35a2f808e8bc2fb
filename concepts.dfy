/**
 * simplemind/concepts.py: the Context that names plugins and dispatches
 * `execute` calls to them.  The plugins are the two concrete ones
 * (BasicMemoryPlugin, KVPlugin) and any other object, which has no
 * `execute`; only positional arguments are forwarded.
 */
module Concepts {
  import opened Wrappers
  import opened Python
  import opened BasicMemory
  import opened KV

  /** A plugin object held by a Context. */
  datatype Plugin =
    | MemoryPlugin(memory: BasicMemoryPlugin)
    | StorePlugin(kv: KVPlugin)
    | OtherPlugin(className: string)

  /** What a plugin's `execute` returns. */
  datatype PluginResult = MemoryList(items: seq<Value>) | Store(entries: map<Value, Value>)

  /** The objects that executing the plugin may change. */
  function Footprint(p: Plugin): set<object> {
    match p
    case MemoryPlugin(m) => {m}
    case StorePlugin(s) => {s}
    case OtherPlugin(_) => {}
  }

  function NotFound(name: string): Error {
    Error(ValueError, "Plugin '" + name + "' not found in context.")
  }

  /** Python's list of missing parameter names: 'a', then 'a' and 'b', then 'a', 'b', and 'c'. */
  function QuotedNames(names: seq<string>): string {
    if |names| == 0 then ""
    else if |names| == 1 then "'" + names[0] + "'"
    else if |names| == 2 then "'" + names[0] + "' and '" + names[1] + "'"
    else CommaList(names[..|names| - 1]) + ", and '" + names[|names| - 1] + "'"
  }

  function CommaList(names: seq<string>): string {
    if |names| == 0 then ""
    else if |names| == 1 then "'" + names[0] + "'"
    else "'" + names[0] + "', " + CommaList(names[1..])
  }

  /**
   * Calling `execute(self, context, p1, ..., pn)` with `given` positional
   * arguments after the context: too many say how many it takes (counting
   * self and context), too few name the missing parameters.
   */
  function ArityError(className: string, params: seq<string>, given: nat): Error
    requires given != |params|
  {
    if given > |params| then
      Error(TypeError, className + ".execute() takes " + IntStr(2 + |params|) + " positional arguments but "
                       + IntStr(2 + given) + " were given")
    else
      var missing := |params| - given;
      Error(TypeError, className + ".execute() missing " + IntStr(missing) + " required positional argument"
                       + (if missing == 1 then "" else "s") + ": " + QuotedNames(params[given..]))
  }

  /** `execute(self, context, message)` of BasicMemoryPlugin. */
  const MemoryParams := ["message"]

  /** `execute(self, context, key, value)` of KVPlugin. */
  const StoreParams := ["key", "value"]

  /** The missing-name lists the two plugins can produce: one name, or two joined by "and". */
  lemma QuotedNamesExamples()
    ensures QuotedNames(["value"]) == "'value'"
    ensures QuotedNames(["key", "value"]) == "'key' and 'value'"
  {
  }

  /** Context: the `plugins` dict. */
  class Context {
    var plugins: map<string, Plugin>

    /** A default Context has no plugins. */
    constructor ()
      ensures plugins == map[]
    {
      plugins := map[];
    }

    /** add_plugin: bind the name, overwriting an earlier binding; other bindings are unchanged. */
    method AddPlugin(name: string, plugin: Plugin)
      modifies this
      ensures plugins == old(plugins)[name := plugin]
      ensures forall n :: n in old(plugins) && n != name ==> n in plugins && plugins[n] == old(plugins)[n]
    {
      plugins := plugins[name := plugin];
    }

    /** execute_plugin: dispatch to the named plugin's `execute` with this context first, or ValueError. */
    method ExecutePlugin(name: string, args: seq<Value>) returns (r: Result<PluginResult, Error>)
      modifies if name in plugins then Footprint(plugins[name]) else {}
      ensures name !in plugins ==> r == Failure(NotFound(name))
      ensures name in plugins && plugins[name].MemoryPlugin? ==>
                var m := plugins[name].memory;
                if |args| == 1 then m.memory == old(m.memory) + [args[0]] && r == Success(MemoryList(m.memory))
                else m.memory == old(m.memory) && r == Failure(ArityError("BasicMemoryPlugin", MemoryParams, |args|))
      ensures name in plugins && plugins[name].StorePlugin? ==>
                var s := plugins[name].kv;
                if |args| == 2 then
                  && (Put(old(s.store), args[0], args[1]).Success? ==> r == Success(Store(s.store)) && s.store == Put(old(s.store), args[0], args[1]).value)
                  && (Put(old(s.store), args[0], args[1]).Failure? ==> r == Failure(Put(old(s.store), args[0], args[1]).error) && s.store == old(s.store))
                else s.store == old(s.store) && r == Failure(ArityError("KVPlugin", StoreParams, |args|))
      ensures name in plugins && plugins[name].OtherPlugin? ==>
                r == Failure(Error(AttributeError, "'" + plugins[name].className + "' object has no attribute 'execute'"))
    {
      if name !in plugins {
        return Failure(NotFound(name));
      }
      match plugins[name]
      case MemoryPlugin(m) =>
        if |args| != 1 {
          return Failure(ArityError("BasicMemoryPlugin", MemoryParams, |args|));
        }
        var items := m.Execute(args[0]);
        r := Success(MemoryList(items));
      case StorePlugin(s) =>
        if |args| != 2 {
          return Failure(ArityError("KVPlugin", StoreParams, |args|));
        }
        var stored := s.Execute(args[0], args[1]);
        r := if stored.Success? then Success(Store(stored.value)) else Failure(stored.error);
      case OtherPlugin(c) =>
        r := Failure(Error(AttributeError, "'" + c + "' object has no attribute 'execute'"));
    }
  }
}
