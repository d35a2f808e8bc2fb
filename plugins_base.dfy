/**
 * simplemind/plugins/base.py: the enabled flag every plugin carries.  The
 * abstract `process` has no behaviour to model.
 */
module PluginsBase {
  /** A call of `enable()` or `disable()`. */
  datatype Switch = On | Off

  /** The flag after a sequence of enable/disable calls, applied in order. */
  function FlagAfter(init: bool, calls: seq<Switch>): (r: bool)
    ensures calls == [] ==> r == init
    ensures calls != [] ==> (r <==> calls[|calls| - 1] == On)
    decreases |calls|
  {
    if calls == [] then init else FlagAfter(calls[0] == On, calls[1..])
  }

  /** Repeating the last call changes nothing: enable and disable are idempotent. */
  lemma SwitchIdempotent(init: bool, calls: seq<Switch>, c: Switch)
    ensures FlagAfter(init, calls + [c, c]) == FlagAfter(init, calls + [c])
  {
    assert (calls + [c, c])[|calls| + 1] == c;
    assert (calls + [c])[|calls|] == c;
  }

  /** BasePlugin: the `is_enabled` flag. */
  class BasePlugin {
    var isEnabled: bool

    /** A new plugin is enabled. */
    constructor ()
      ensures isEnabled
    {
      isEnabled := true;
    }

    /** enable: the flag is set, whatever it was. */
    method Enable()
      modifies this`isEnabled
      ensures isEnabled
      ensures isEnabled == FlagAfter(old(isEnabled), [On])
    {
      isEnabled := true;
    }

    /** disable: the flag is cleared, whatever it was. */
    method Disable()
      modifies this`isEnabled
      ensures !isEnabled
      ensures isEnabled == FlagAfter(old(isEnabled), [Off])
    {
      isEnabled := false;
    }
  }
}
