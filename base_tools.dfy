/**
 * The tool-schema builder of simplemind/providers/_base_tools.py: how a
 * Python function's parameters become a tool's `properties` and `required`
 * lists, over a closed type vocabulary.  Python introspection
 * (`__annotations__`, `inspect.signature`, `__metadata__`) is replaced by the
 * descriptor `FunctionInfo`.
 */
module BaseTools {
  import opened Wrappers
  import opened Python

  /** A value that may stand inside `Literal[...]`. */
  datatype LiteralArg = LitStr(s: string) | LitInt(i: int) | LitBool(b: bool) | LitNone

  /** `str(x)` of a literal value. */
  function LiteralStr(a: LiteralArg): string {
    match a
    case LitStr(s) => s
    case LitInt(i) => IntStr(i)
    case LitBool(b) => if b then "True" else "False"
    case LitNone => "None"
  }

  /** `[str(x) for x in args]`. */
  function LiteralStrs(args: seq<LiteralArg>): (r: seq<string>)
    ensures |r| == |args|
    ensures forall i :: 0 <= i < |args| ==> r[i] == LiteralStr(args[i])
  {
    if args == [] then [] else [LiteralStr(args[0])] + LiteralStrs(args[1..])
  }

  /** The type part of a parameter annotation; `OtherType` carries the type's repr. */
  datatype PyType =
    | StrType
    | IntType
    | BoolType
    | LiteralType(args: seq<LiteralArg>)
    | OtherType(repr: string)

  /** BaseToolConfig.TYPE_CONVERSION. */
  const TypeConversion: map<PyType, string> :=
    map[StrType := "string", IntType := "integer", BoolType := "boolean"]

  /** BaseTool.convert_type: the closed type vocabulary, every Literal as "string", TypeError otherwise. */
  function ConvertType(t: PyType): (r: Result<string, Error>)
    ensures r.Success? <==> !t.OtherType?
    ensures r == Success("string") <==> t.StrType? || t.LiteralType?
    ensures r == Success("integer") <==> t.IntType?
    ensures r == Success("boolean") <==> t.BoolType?
    ensures r.Failure? ==> r.error == Error(TypeError, "Field of type " + t.repr + " is not supported")
  {
    if t.LiteralType? then Success(TypeConversion[StrType])
    else if t in TypeConversion then Success(TypeConversion[t])
    else Failure(Error(TypeError, "Field of type " + t.repr + " is not supported"))
  }

  /**
   * The object a parameter's Field information is read from: a pydantic
   * FieldInfo (`Field(...)`) with its description and whether its default is
   * PydanticUndefined, or any other object (named by its class).
   */
  datatype FieldObject =
    | FieldInfo(description: Option<string>, defaultUndefined: bool)
    | OtherObject(className: string)

  /** One value of `__annotations__`: `Annotated[T, m, ...]` (origin T, first metadata m), or a plain type. */
  datatype Annotation = Annotated(origin: PyType, metadata: FieldObject) | Plain(t: PyType)

  /** The default of a parameter in `inspect.signature(func)`; `NoDefault` is `Parameter.empty`. */
  datatype ParamDefault = NoDefault | Default(value: FieldObject)

  predicate DistinctNames(s: seq<(string, Annotation)>) {
    forall i, j :: 0 <= i < j < |s| ==> s[i].0 != s[j].0
  }

  /** `__annotations__.items()` in order; a dict, so no name occurs twice. */
  type Annotations = s: seq<(string, Annotation)> | DistinctNames(s) witness []

  /**
   * What `from_function` learns about a function: `__name__`, `__doc__`,
   * `__annotations__` (which holds a `return` entry when the function has a
   * return annotation) and the signature's parameters with their defaults.
   */
  datatype FunctionInfo = FunctionInfo(
    name: string,
    doc: Option<string>,
    annotations: Annotations,
    signature: map<string, ParamDefault>)

  /** The callable behind a tool: keyword arguments to `str(result)`, or what it raises. */
  type ToolFunction = map<string, Value> -> Result<string, Error>

  /** A Python function handed to a provider as a tool. */
  datatype PyFunction = PyFunction(info: FunctionInfo, call: ToolFunction)

  /** BaseToolProperty. */
  datatype ToolProperty = ToolProperty(typeName: string, enum: Option<seq<string>>, description: string)

  /** The schema part of a BaseTool built by `from_function`. */
  datatype ToolSchema = ToolSchema(
    name: string,
    description: string,
    properties: map<string, ToolProperty>,
    required: seq<string>)

  /** The execution fields of a BaseTool. */
  datatype ToolState = ToolState(toolId: Option<string>, functionResult: Option<string>) {
    /** BaseTool.is_executed. */
    predicate IsExecuted() {
      functionResult.Some?
    }
  }

  function KeyErr(key: string): Error {
    Error(KeyError, "'" + key + "'")
  }

  /** The type a parameter's annotation declares (the origin of an Annotated one). */
  function FieldType(a: Annotation): PyType {
    match a
    case Annotated(origin, _) => origin
    case Plain(t) => t
  }

  /** Where a parameter's Field and type come from: Annotated metadata, else the signature default, else ValueError. */
  function FieldOf(f: FunctionInfo, argName: string, a: Annotation): (r: Result<FieldObject, Error>)
    ensures a.Annotated? ==> r == Success(a.metadata)
    ensures a.Plain? && argName !in f.signature ==> r == Failure(KeyErr(argName))
    ensures a.Plain? && argName in f.signature && f.signature[argName].NoDefault? ==>
              r == Failure(Error(ValueError, "Please add a Field annotation to `" + f.name + "." + argName + "` parameter"))
    ensures a.Plain? && argName in f.signature && f.signature[argName].Default? ==>
              r == Success(f.signature[argName].value)
  {
    match a
    case Annotated(_, m) => Success(m)
    case Plain(_) =>
      if argName !in f.signature then Failure(KeyErr(argName))
      else match f.signature[argName]
        case NoDefault =>
          Failure(Error(ValueError, "Please add a Field annotation to `" + f.name + "." + argName + "` parameter"))
        case Default(v) => Success(v)
  }

  /** `field.description`, then BaseToolProperty's check that the description is a str. */
  function DescriptionOf(field: FieldObject): (r: Result<string, Error>)
    ensures r.Success? <==> field.FieldInfo? && field.description.Some?
    ensures r.Success? ==> r.value == field.description.value
    ensures field.OtherObject? ==> r.Failure? && r.error.kind == AttributeError
    ensures field.FieldInfo? && field.description.None? ==> r.Failure? && r.error.kind == ValidationError
  {
    match field
    case OtherObject(c) => Failure(Error(AttributeError, "'" + c + "' object has no attribute 'description'"))
    case FieldInfo(d, _) =>
      if d.Some? then Success(d.value) else Failure(Error(ValidationError, "description: Input should be a valid string"))
  }

  predicate IsPlainDefault(d: ParamDefault) {
    d.Default? && !d.value.FieldInfo?
  }

  /** `_is_required(field, func_signature, arg_name)`. */
  function IsRequired(field: FieldObject, f: FunctionInfo, argName: string): (r: Result<bool, Error>)
    ensures r.Success? <==> argName in f.signature && (IsPlainDefault(f.signature[argName]) || field.FieldInfo?)
    ensures r == Success(true) <==>
              && argName in f.signature
              && !IsPlainDefault(f.signature[argName])
              && field.FieldInfo? && field.defaultUndefined
    ensures argName !in f.signature ==> r == Failure(KeyErr(argName))
  {
    if argName !in f.signature then Failure(KeyErr(argName))
    else if IsPlainDefault(f.signature[argName]) then Success(false)
    else match field
      case FieldInfo(_, undefined) => Success(undefined)
      case OtherObject(c) => Failure(Error(AttributeError, "'" + c + "' object has no attribute 'default'"))
  }

  /** What one annotated parameter contributes, or the exception it raises (independent of the others). */
  datatype EntryInfo = EntryInfo(typeName: string, literalEnum: Option<seq<string>>, description: string, required: bool)

  /** The state-independent part of one iteration of the loop of `from_function`, in its order of checks. */
  function Entry(f: FunctionInfo, e: (string, Annotation)): Result<EntryInfo, Error> {
    var field :- FieldOf(f, e.0, e.1);
    var typeName :- ConvertType(FieldType(e.1));
    var description :- DescriptionOf(field);
    var required :- IsRequired(field, f, e.0);
    var literal := if FieldType(e.1).LiteralType? then Some(LiteralStrs(FieldType(e.1).args)) else None;
    Success(EntryInfo(typeName, literal, description, required))
  }

  /** The variables the loop of `from_function` carries: `properties`, `required`, `enum_values`. */
  datatype BuildState = BuildState(properties: map<string, ToolProperty>, required: seq<string>, enumValues: Option<seq<string>>)

  /** Record one parameter; `enum_values` changes only at a Literal parameter. */
  function Apply(st: BuildState, name: string, info: EntryInfo): BuildState {
    var enum := if info.literalEnum.Some? then info.literalEnum else st.enumValues;
    BuildState(
      st.properties[name := ToolProperty(info.typeName, enum, info.description)],
      if info.required then st.required + [name] else st.required,
      enum)
  }

  /** The loop of `from_function` after its first `n` iterations. */
  function Build(f: FunctionInfo, n: nat): Result<BuildState, Error>
    requires n <= |f.annotations|
  {
    if n == 0 then Success(BuildState(map[], [], None))
    else
      var st :- Build(f, n - 1);
      var info :- Entry(f, f.annotations[n - 1]);
      Success(Apply(st, f.annotations[n - 1].0, info))
  }

  /** BaseTool.from_function, as a value: the tool's schema or the exception raised. */
  function ToolFrom(f: FunctionInfo): Result<ToolSchema, Error> {
    var st :- Build(f, |f.annotations|);
    Success(ToolSchema(f.name, Strip(OrDefault(f.doc, "")), st.properties, st.required))
  }

  /** BaseTool.from_function: the loop over the annotations that fills `properties` and `required`. */
  method FromFunction(f: FunctionInfo) returns (r: Result<ToolSchema, Error>)
    ensures r == ToolFrom(f)
  {
    var properties: map<string, ToolProperty> := map[];
    var required: seq<string> := [];
    var enumValues: Option<seq<string>> := None;
    var n := 0;
    while n < |f.annotations|
      invariant 0 <= n <= |f.annotations|
      invariant Build(f, n) == Success(BuildState(properties, required, enumValues))
    {
      var (argName, annotation) := f.annotations[n];
      var info := Entry(f, (argName, annotation));
      if info.Failure? {
        BuildFailurePersists(f, n + 1, |f.annotations|);
        return Failure(info.error);
      }
      if info.value.literalEnum.Some? {
        enumValues := info.value.literalEnum;
      }
      properties := properties[argName := ToolProperty(info.value.typeName, enumValues, info.value.description)];
      if info.value.required {
        required := required + [argName];
      }
      n := n + 1;
    }
    r := Success(ToolSchema(f.name, Strip(OrDefault(f.doc, "")), properties, required));
  }

  /** Once an iteration raises, the whole loop raises the same exception. */
  lemma {:induction false} BuildFailurePersists(f: FunctionInfo, k: nat, n: nat)
    requires k <= n <= |f.annotations|
    requires Build(f, k).Failure?
    ensures Build(f, n) == Build(f, k)
  {
    if n > k {
      BuildFailurePersists(f, k, n - 1);
    }
  }

  /** The parameter at index `i` can be turned into a property. */
  predicate EntryOk(f: FunctionInfo, i: nat)
    requires i < |f.annotations|
  {
    Entry(f, f.annotations[i]).Success?
  }

  /** `enum_values` after the first `n` parameters: the most recent Literal's values, None before any. */
  function CarriedEnum(f: FunctionInfo, n: nat): Option<seq<string>>
    requires n <= |f.annotations|
  {
    if n == 0 then None
    else if FieldType(f.annotations[n - 1].1).LiteralType? then Some(LiteralStrs(FieldType(f.annotations[n - 1].1).args))
    else CarriedEnum(f, n - 1)
  }

  /** The names of the first `n` parameters for which `_is_required` holds, in order. */
  function RequiredNames(f: FunctionInfo, n: nat): seq<string>
    requires n <= |f.annotations|
  {
    if n == 0 then []
    else
      var e := Entry(f, f.annotations[n - 1]);
      RequiredNames(f, n - 1) + (if e.Success? && e.value.required then [f.annotations[n - 1].0] else [])
  }

  /** The names of the first `n` annotated parameters. */
  function NamesUpTo(f: FunctionInfo, n: nat): set<string>
    requires n <= |f.annotations|
  {
    set i | 0 <= i < n :: f.annotations[i].0
  }

  /** The property recorded for the parameter at index `i`. */
  function PropertyAt(f: FunctionInfo, i: nat): ToolProperty
    requires i < |f.annotations| && EntryOk(f, i)
  {
    var info := Entry(f, f.annotations[i]).value;
    ToolProperty(info.typeName, CarriedEnum(f, i + 1), info.description)
  }

  /** After `n` iterations: success iff each of them succeeded, else the first failing parameter's exception. */
  lemma {:induction false} BuildOutcome(f: FunctionInfo, n: nat)
    requires n <= |f.annotations|
    ensures Build(f, n).Success? <==> forall i :: 0 <= i < n ==> EntryOk(f, i)
    ensures Build(f, n).Failure? ==>
              exists i :: 0 <= i < n && !EntryOk(f, i) && Build(f, n).error == Entry(f, f.annotations[i]).error
                && forall j :: 0 <= j < i ==> EntryOk(f, j)
  {
    if n > 0 {
      BuildOutcome(f, n - 1);
      if Build(f, n - 1).Failure? {
        assert Build(f, n) == Failure(Build(f, n - 1).error);
        var i :| 0 <= i < n - 1 && !EntryOk(f, i) && Build(f, n - 1).error == Entry(f, f.annotations[i]).error
                 && forall j :: 0 <= j < i ==> EntryOk(f, j);
      } else if !EntryOk(f, n - 1) {
        assert Build(f, n) == Failure(Entry(f, f.annotations[n - 1]).error);
        assert forall j :: 0 <= j < n - 1 ==> EntryOk(f, j);
      }
    }
  }

  /** One successful iteration records the parameter's property under its name. */
  lemma BuildStep(f: FunctionInfo, n: nat)
    requires 0 < n <= |f.annotations| && Build(f, n).Success?
    ensures Build(f, n - 1).Success? && EntryOk(f, n - 1)
    ensures Build(f, n).value.properties == Build(f, n - 1).value.properties[f.annotations[n - 1].0 := PropertyAt(f, n - 1)]
  {
    BuildEnum(f, n);
  }

  /** After `n` successful iterations, `properties` holds exactly the names seen. */
  lemma {:induction false} BuildKeys(f: FunctionInfo, n: nat)
    requires n <= |f.annotations| && Build(f, n).Success?
    ensures Build(f, n).value.properties.Keys == NamesUpTo(f, n)
  {
    if n > 0 {
      BuildStep(f, n);
      BuildKeys(f, n - 1);
      assert NamesUpTo(f, n) == NamesUpTo(f, n - 1) + {f.annotations[n - 1].0};
    }
  }

  /** After `n` successful iterations, the name of parameter `i < n` maps to that parameter's property. */
  lemma {:induction false} BuildValueAt(f: FunctionInfo, n: nat, i: nat)
    requires i < n <= |f.annotations| && Build(f, n).Success?
    ensures EntryOk(f, i)
    ensures f.annotations[i].0 in Build(f, n).value.properties
    ensures Build(f, n).value.properties[f.annotations[i].0] == PropertyAt(f, i)
  {
    BuildStep(f, n);
    if i < n - 1 {
      BuildValueAt(f, n - 1, i);
      assert f.annotations[i].0 != f.annotations[n - 1].0;
    }
  }

  /** After `n` successful iterations, `enum_values` is the most recent Literal's values. */
  lemma {:induction false} BuildEnum(f: FunctionInfo, n: nat)
    requires n <= |f.annotations| && Build(f, n).Success?
    ensures Build(f, n).value.enumValues == CarriedEnum(f, n)
  {
    if n > 0 {
      BuildEnum(f, n - 1);
    }
  }

  /** After `n` successful iterations, `required` is the in-order list of required names. */
  lemma {:induction false} BuildRequired(f: FunctionInfo, n: nat)
    requires n <= |f.annotations| && Build(f, n).Success?
    ensures Build(f, n).value.required == RequiredNames(f, n)
  {
    if n > 0 {
      BuildRequired(f, n - 1);
    }
  }

  /** The loop's outcome and, on success, the `properties`, `required` and `enum_values` it built. */
  lemma BuildFacts(f: FunctionInfo, n: nat)
    requires n <= |f.annotations|
    ensures Build(f, n).Success? <==> forall i :: 0 <= i < n ==> EntryOk(f, i)
    ensures Build(f, n).Failure? ==>
              exists i :: 0 <= i < n && !EntryOk(f, i) && Build(f, n).error == Entry(f, f.annotations[i]).error
                && forall j :: 0 <= j < i ==> EntryOk(f, j)
    ensures Build(f, n).Success? ==>
              var st := Build(f, n).value;
              && st.properties.Keys == NamesUpTo(f, n)
              && (forall i :: 0 <= i < n ==> st.properties[f.annotations[i].0] == PropertyAt(f, i))
              && st.required == RequiredNames(f, n)
              && st.enumValues == CarriedEnum(f, n)
  {
    BuildOutcome(f, n);
    if Build(f, n).Success? {
      BuildKeys(f, n);
      forall i | 0 <= i < n
        ensures EntryOk(f, i) && Build(f, n).value.properties[f.annotations[i].0] == PropertyAt(f, i)
      {
        BuildValueAt(f, n, i);
      }
      BuildRequired(f, n);
      BuildEnum(f, n);
    }
  }

  /** `from_function` fails exactly when some parameter fails, with the exception of the first one that does. */
  lemma FromFunctionFailsAtFirstBadParameter(f: FunctionInfo)
    ensures ToolFrom(f).Success? <==> forall i :: 0 <= i < |f.annotations| ==> EntryOk(f, i)
    ensures ToolFrom(f).Failure? ==>
              exists i :: 0 <= i < |f.annotations| && !EntryOk(f, i)
                && ToolFrom(f).error == Entry(f, f.annotations[i]).error
                && forall j :: 0 <= j < i ==> EntryOk(f, j)
  {
    BuildFacts(f, |f.annotations|);
  }

  /**
   * A built tool: name and stripped docstring, one property per annotated
   * name (type from convert_type, description from the Field, enum carried
   * from the most recent Literal), and `required` the in-order names for
   * which `_is_required` holds.
   */
  lemma FromFunctionBuildsSchema(f: FunctionInfo)
    requires ToolFrom(f).Success?
    ensures ToolFrom(f).value.name == f.name
    ensures ToolFrom(f).value.description == Strip(OrDefault(f.doc, ""))
    ensures ToolFrom(f).value.properties.Keys == NamesUpTo(f, |f.annotations|)
    ensures forall i :: 0 <= i < |f.annotations| ==>
              && EntryOk(f, i)
              && f.annotations[i].0 in ToolFrom(f).value.properties
              && ToolFrom(f).value.properties[f.annotations[i].0] == PropertyAt(f, i)
              && ConvertType(FieldType(f.annotations[i].1)).Success?
              && PropertyAt(f, i).typeName == ConvertType(FieldType(f.annotations[i].1)).value
              && PropertyAt(f, i).enum == CarriedEnum(f, i + 1)
    ensures ToolFrom(f).value.required == RequiredNames(f, |f.annotations|)
  {
    var n := |f.annotations|;
    BuildFacts(f, n);
    var st := Build(f, n).value;
    var t := ToolFrom(f).value;
    assert t.properties == st.properties && t.required == st.required;
    forall i | 0 <= i < n
      ensures f.annotations[i].0 in t.properties
      ensures ConvertType(FieldType(f.annotations[i].1)).Success?
      ensures PropertyAt(f, i).typeName == ConvertType(FieldType(f.annotations[i].1)).value
    {
      assert f.annotations[i].0 in NamesUpTo(f, n);
      assert EntryOk(f, i);
      EntryTypeName(f, i);
    }
  }

  lemma EntryTypeName(f: FunctionInfo, i: nat)
    requires i < |f.annotations| && EntryOk(f, i)
    ensures ConvertType(FieldType(f.annotations[i].1)).Success?
    ensures PropertyAt(f, i).typeName == ConvertType(FieldType(f.annotations[i].1)).value
  {
  }

  /** `required` lists exactly the names, in order, whose parameter `_is_required` says is required. */
  lemma {:induction false} RequiredNamesAreRequired(f: FunctionInfo, n: nat)
    requires n <= |f.annotations|
    ensures forall x :: x in RequiredNames(f, n) <==>
              exists i :: 0 <= i < n && f.annotations[i].0 == x && EntryOk(f, i) && Entry(f, f.annotations[i]).value.required
    ensures |RequiredNames(f, n)| <= n
  {
    if n > 0 {
      RequiredNamesAreRequired(f, n - 1);
    }
  }

  /** A Literal parameter's enum is `[str(x) for x in args]`; a later non-Literal one keeps the most recent Literal's enum. */
  lemma {:induction false} EnumCarriesOver(f: FunctionInfo, j: nat, i: nat)
    requires j <= i < |f.annotations|
    requires FieldType(f.annotations[j].1).LiteralType?
    requires forall k :: j < k <= i ==> !FieldType(f.annotations[k].1).LiteralType?
    ensures CarriedEnum(f, i + 1) == Some(LiteralStrs(FieldType(f.annotations[j].1).args))
  {
    if i > j {
      EnumCarriesOver(f, j, i - 1);
    }
  }

  /** With no Literal parameter up to `i`, the enum is None. */
  lemma {:induction false} NoEnumBeforeLiteral(f: FunctionInfo, i: nat)
    requires i <= |f.annotations|
    requires forall k :: 0 <= k < i ==> !FieldType(f.annotations[k].1).LiteralType?
    ensures CarriedEnum(f, i) == None
  {
    if i > 0 {
      NoEnumBeforeLiteral(f, i - 1);
    }
  }

  /**
   * An annotated name that is not a parameter of the signature (the `return`
   * entry of a function with a return annotation) makes `from_function` fail.
   */
  lemma AnnotationOutsideSignatureFails(f: FunctionInfo, i: nat)
    requires i < |f.annotations| && f.annotations[i].0 !in f.signature
    ensures ToolFrom(f).Failure?
  {
    var e := f.annotations[i];
    var field := FieldOf(f, e.0, e.1);
    if field.Success? {
      assert IsRequired(field.value, f, e.0).Failure?;
    }
    assert !EntryOk(f, i);
    BadParameterFails(f, i);
  }

  /** An unsupported parameter type makes `from_function` fail, so no tool is built. */
  lemma UnsupportedTypeFails(f: FunctionInfo, i: nat)
    requires i < |f.annotations| && FieldType(f.annotations[i].1).OtherType?
    ensures ToolFrom(f).Failure?
  {
    assert !EntryOk(f, i);
    BadParameterFails(f, i);
  }

  /** One parameter that cannot become a property is enough for `from_function` to fail. */
  lemma BadParameterFails(f: FunctionInfo, i: nat)
    requires i < |f.annotations| && !EntryOk(f, i)
    ensures ToolFrom(f).Failure?
  {
    FromFunctionFailsAtFirstBadParameter(f);
  }

  /** BaseToolProperty.model_dump(exclude_none=True). */
  function PropertyDump(p: ToolProperty): (r: map<string, Value>)
    ensures "type" in r && r["type"] == PyStr(p.typeName)
    ensures "description" in r && r["description"] == PyStr(p.description)
    ensures "enum" in r <==> p.enum.Some?
    ensures r.Keys <= {"type", "description", "enum"}
  {
    var base := map["type" := PyStr(p.typeName), "description" := PyStr(p.description)];
    match p.enum
    case None => base
    case Some(values) => base["enum" := PyList(seq(|values|, k requires 0 <= k < |values| => PyStr(values[k])))]
  }

  /** BaseTool.get_properties_schema: a key-preserving map of the properties' dumps. */
  function PropertiesSchema(properties: map<string, ToolProperty>): (r: map<string, Value>)
    ensures r.Keys == properties.Keys
    ensures forall k :: k in r ==> r[k] == PyDict(PropertyDump(properties[k]))
  {
    map k | k in properties :: PyDict(PropertyDump(properties[k]))
  }
}
