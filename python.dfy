/**
 * The few Python notions the modelled code relies on: values seen by
 * content, exceptions, truthiness, `or`-defaults and the string methods
 * `lower`, `startswith`, `strip` and `str(int)`.
 */
module Python {
  import opened Wrappers

  /** A Python object seen by value: None, bool, int, str, list, str-keyed dict. */
  datatype Value =
    | PyNone
    | PyBool(b: bool)
    | PyInt(i: int)
    | PyStr(s: string)
    | PyList(items: seq<Value>)
    | PyDict(entries: map<string, Value>)

  /** Python truthiness, as tested by `if x:` and `x or y`. */
  predicate Truthy(v: Value) {
    match v
    case PyNone => false
    case PyBool(b) => b
    case PyInt(i) => i != 0
    case PyStr(s) => s != ""
    case PyList(items) => items != []
    case PyDict(entries) => entries != map[]
  }

  /** Values that may be used as a dict key (lists and dicts are unhashable). */
  predicate Hashable(v: Value) {
    !v.PyList? && !v.PyDict?
  }

  /** The exception classes raised by the modelled code. */
  datatype ErrorKind =
    | TypeError
    | ValueError
    | KeyError
    | AttributeError
    | IndexError
    | AssertionError
    | ValidationError
    | AuthenticationError
    | ProviderError
    | ForeignError(className: string)

  /** A raised exception: its class and `str(e)`. */
  datatype Error = Error(kind: ErrorKind, message: string)

  /** `x or default` for an optional string: both None and "" select the default. */
  function OrDefault(x: Option<string>, default: string): (r: string)
    ensures x.Some? && x.value != "" ==> r == x.value
    ensures x.None? || x.value == "" ==> r == default
  {
    if x.Some? && x.value != "" then x.value else default
  }

  predicate StartsWith(s: string, prefix: string) {
    |prefix| <= |s| && s[..|prefix|] == prefix
  }

  /** `c.lower()` on the ASCII letters. */
  function LowerChar(c: char): char {
    if 'A' <= c <= 'Z' then (c as int + 32) as char else c
  }

  /** `s.lower()`, folding the ASCII letters only. */
  function Lower(s: string): (r: string)
    ensures |r| == |s|
    ensures forall i :: 0 <= i < |s| ==> r[i] == LowerChar(s[i])
  {
    if s == [] then [] else [LowerChar(s[0])] + Lower(s[1..])
  }

  /** The characters for which Python's `str.isspace()` holds. */
  predicate IsSpace(c: char) {
    var n := c as int;
    n == 0x20 || 0x09 <= n <= 0x0D || 0x1C <= n <= 0x1F || n == 0x85 || n == 0xA0
    || n == 0x1680 || 0x2000 <= n <= 0x200A || n == 0x2028 || n == 0x2029
    || n == 0x202F || n == 0x205F || n == 0x3000
  }

  /** `s.lstrip()`: the suffix of `s` left after dropping leading whitespace. */
  function LStrip(s: string): (r: string)
    ensures |r| <= |s| && r == s[|s| - |r|..]
    ensures r == [] || !IsSpace(r[0])
    ensures forall i :: 0 <= i < |s| - |r| ==> IsSpace(s[i])
  {
    if s != [] && IsSpace(s[0]) then LStrip(s[1..]) else s
  }

  /** `s.rstrip()`: the prefix of `s` left after dropping trailing whitespace. */
  function RStrip(s: string): (r: string)
    ensures |r| <= |s| && r == s[..|r|]
    ensures r == [] || !IsSpace(r[|r| - 1])
    ensures forall i :: |r| <= i < |s| ==> IsSpace(s[i])
  {
    if s != [] && IsSpace(s[|s| - 1]) then RStrip(s[..|s| - 1]) else s
  }

  /** `s.strip()`: a slice of `s` with no whitespace at either end, everything cut being whitespace. */
  function Strip(s: string): (r: string)
    ensures exists i, j ::
              && 0 <= i <= j <= |s| && r == s[i..j]
              && (forall k :: 0 <= k < i ==> IsSpace(s[k]))
              && (forall k :: j <= k < |s| ==> IsSpace(s[k]))
    ensures r == [] || (!IsSpace(r[0]) && !IsSpace(r[|r| - 1]))
  {
    var left := LStrip(s);
    var r := RStrip(left);
    var i := |s| - |left|;
    assert r == s[i..i + |r|];
    assert forall k :: i + |r| <= k < |s| ==> IsSpace(s[k]) by {
      forall k | i + |r| <= k < |s| ensures IsSpace(s[k]) {
        assert s[k] == left[k - i];
      }
    }
    assert r != [] ==> r[0] == left[0];
    r
  }

  function DigitChar(d: nat): char
    requires d < 10
  {
    ['0', '1', '2', '3', '4', '5', '6', '7', '8', '9'][d]
  }

  /** The decimal digits of `n`, most significant first. */
  function Digits(n: nat): (r: string)
    ensures |r| > 0
    ensures forall i :: 0 <= i < |r| ==> '0' <= r[i] <= '9'
  {
    if n < 10 then [DigitChar(n)] else Digits(n / 10) + [DigitChar(n % 10)]
  }

  /** `str(i)` for an int. */
  function IntStr(i: int): (r: string)
    ensures |r| > 0
    ensures (r[0] == '-') <==> i < 0
  {
    if i < 0 then "-" + Digits(-i) else Digits(i)
  }

  /**
   * A call `f(a=..., **options)` whose `options` repeat one of the keyword
   * arguments already given by name raises TypeError before `f` runs.  The
   * message names the first clashing name in `named`'s order; CPython names
   * the first clash in the order of the `options` dict, so the two differ
   * only in the message, and only when several names clash.
   */
  function KeywordConflict(callee: string, options: map<string, Value>, named: seq<string>): (r: Option<Error>)
    ensures r.None? <==> forall k :: k in named ==> k !in options
    ensures r.Some? ==> r.value.kind == TypeError
    ensures |named| > 0 && named[0] in options ==> r == Some(MultipleValues(callee, named[0]))
  {
    if named == [] then None
    else if named[0] in options then Some(MultipleValues(callee, named[0]))
    else KeywordConflict(callee, options, named[1..])
  }

  /** The TypeError a call raises for a keyword argument given twice. */
  function MultipleValues(callee: string, k: string): (r: Error)
    ensures r.kind == TypeError
  {
    Error(TypeError, callee + "() got multiple values for keyword argument '" + k + "'")
  }
}
