/**
 * simplemind/providers/_base.py: the class-level facts of a provider
 * (its name, default model and capability flags) and `make_tools`, which
 * turns the caller's functions into tool schemas.
 */
module BaseProvider {
  import opened Wrappers
  import opened Python
  import opened BaseTools

  /**
   * A provider class as the registry holds it: `__name__`, the `NAME` and
   * `DEFAULT_MODEL` class attributes, and the capability flags it overrides
   * (None when it inherits BaseProvider's value).
   */
  datatype ProviderClass = ProviderClass(
    className: string,
    name: string,
    defaultModel: string,
    streamingOverride: Option<bool>,
    structuredOverride: Option<bool>)

  /** BaseProvider.supports_streaming. */
  const BaseSupportsStreaming := false

  /** BaseProvider.supports_structured_responses. */
  const BaseSupportsStructuredResponses := true

  /** `cls.supports_streaming`: the class's own value, else BaseProvider's. */
  function SupportsStreaming(c: ProviderClass): (r: bool)
    ensures c.streamingOverride.None? ==> !r
    ensures c.streamingOverride.Some? ==> r == c.streamingOverride.value
  {
    c.streamingOverride.GetOr(BaseSupportsStreaming)
  }

  /** `cls.supports_structured_responses`: the class's own value, else BaseProvider's. */
  function SupportsStructuredResponses(c: ProviderClass): (r: bool)
    ensures c.structuredOverride.None? ==> r
    ensures c.structuredOverride.Some? ==> r == c.structuredOverride.value
  {
    c.structuredOverride.GetOr(BaseSupportsStructuredResponses)
  }

  /** `[self.tool.from_function(func) for func in fs]`: left to right, the first exception propagates. */
  function SchemasOf(fs: seq<PyFunction>): (r: Result<seq<ToolSchema>, Error>)
    ensures r.Success? <==> forall i :: 0 <= i < |fs| ==> ToolFrom(fs[i].info).Success?
    ensures r.Success? ==>
              && |r.value| == |fs|
              && forall i :: 0 <= i < |fs| ==> r.value[i] == ToolFrom(fs[i].info).value
    ensures r.Failure? ==>
              exists i :: 0 <= i < |fs| && ToolFrom(fs[i].info) == Failure(r.error)
                && forall j :: 0 <= j < i ==> ToolFrom(fs[j].info).Success?
  {
    MapAll((p: PyFunction) => ToolFrom(p.info), fs)
  }

  /** BaseProvider.make_tools: a list for a list (same length and order), and no list (None) for None. */
  function MakeTools(tools: Option<seq<PyFunction>>): (r: Option<Result<seq<ToolSchema>, Error>>)
    ensures r.None? <==> tools.None?
    ensures tools.Some? ==> r == Some(SchemasOf(tools.value))
  {
    match tools
    case None => None
    case Some(fs) => Some(SchemasOf(fs))
  }
}
