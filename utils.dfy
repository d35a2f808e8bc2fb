/**
 * simplemind/utils.py: `find_provider`, a case-insensitive first-match
 * search of the provider registry.  The registry is a parameter, and the
 * search returns the matching class rather than a fresh instance of it.
 */
module Utils {
  import opened Wrappers
  import opened Python
  import opened BaseProvider

  /** The registered class name matches the requested name, ignoring case. */
  predicate NameMatches(c: ProviderClass, name: string) {
    Lower(c.className) == Lower(name)
  }

  function NotFound(name: Option<string>): Error {
    Error(ValueError, "Provider " + (if name.None? then "None" else name.value) + " not found")
  }

  /** find_provider over `registry`; `name` is None when the caller passes None. */
  function FindProvider(registry: seq<ProviderClass>, name: Option<string>): (r: Result<ProviderClass, Error>)
    ensures name.Some? ==>
              (r.Success? <==> exists i :: 0 <= i < |registry| && NameMatches(registry[i], name.value))
    ensures r.Success? ==>
              && name.Some?
              && exists i :: 0 <= i < |registry| && registry[i] == r.value && NameMatches(r.value, name.value)
                   && forall j :: 0 <= j < i ==> !NameMatches(registry[j], name.value)
    ensures r.Failure? && name.Some? ==> r.error == NotFound(name)
    ensures name.None? ==> r.Failure? && (r.error.kind == AttributeError <==> |registry| > 0)
  {
    if registry == [] then Failure(NotFound(name))
    else match name
      case None => Failure(Error(AttributeError, "'NoneType' object has no attribute 'lower'"))
      case Some(n) =>
        if NameMatches(registry[0], n) then Success(registry[0])
        else
          var rest := FindProvider(registry[1..], name);
          MatchInTail(registry, n);
          if rest.Success? then FirstMatchInTail(registry, n, rest.value); rest
          else rest
  }

  /** Past a first entry that does not match, the registry has a match iff its tail does. */
  lemma MatchInTail(registry: seq<ProviderClass>, n: string)
    requires 0 < |registry| && !NameMatches(registry[0], n)
    ensures (exists i :: 0 <= i < |registry| && NameMatches(registry[i], n))
            <==> exists i :: 0 <= i < |registry[1..]| && NameMatches(registry[1..][i], n)
  {
    if exists i :: 0 <= i < |registry| && NameMatches(registry[i], n) {
      var i :| 0 <= i < |registry| && NameMatches(registry[i], n);
      assert registry[1..][i - 1] == registry[i];
    }
  }

  /** Past a first entry that does not match, the first match of the tail is the first match of the registry. */
  lemma FirstMatchInTail(registry: seq<ProviderClass>, n: string, c: ProviderClass)
    requires 0 < |registry| && !NameMatches(registry[0], n)
    requires exists k :: 0 <= k < |registry[1..]| && registry[1..][k] == c && NameMatches(c, n)
                         && forall j :: 0 <= j < k ==> !NameMatches(registry[1..][j], n)
    ensures exists i :: 0 <= i < |registry| && registry[i] == c && NameMatches(c, n)
                        && forall j :: 0 <= j < i ==> !NameMatches(registry[j], n)
  {
    var k :| 0 <= k < |registry[1..]| && registry[1..][k] == c && NameMatches(c, n)
             && forall j :: 0 <= j < k ==> !NameMatches(registry[1..][j], n);
    assert registry[k + 1] == c;
    forall j | 0 < j < k + 1
      ensures !NameMatches(registry[j], n)
    {
      assert registry[j] == registry[1..][j - 1];
    }
  }

  /** Lower-casing is idempotent, so names that agree after lower-casing are matched alike. */
  lemma {:induction false} LowerIdempotent(s: string)
    ensures Lower(Lower(s)) == Lower(s)
  {
    assert forall i :: 0 <= i < |s| ==> LowerChar(LowerChar(s[i])) == LowerChar(s[i]);
  }

  /** Every case variant of a name selects the same class (and fails alike, up to the message). */
  lemma {:induction false} FindProviderCaseInsensitive(registry: seq<ProviderClass>, a: string, b: string)
    requires Lower(a) == Lower(b)
    ensures FindProvider(registry, Some(a)).Success? <==> FindProvider(registry, Some(b)).Success?
    ensures FindProvider(registry, Some(a)).Success? ==> FindProvider(registry, Some(a)) == FindProvider(registry, Some(b))
    decreases |registry|
  {
    if registry != [] {
      FindProviderCaseInsensitive(registry[1..], a, b);
    }
  }

  /** A registered class is found under its own name, in any case variant, unless an earlier one shares the name. */
  lemma RegisteredNameIsFound(registry: seq<ProviderClass>, i: int, name: string)
    requires 0 <= i < |registry|
    requires Lower(name) == Lower(registry[i].className)
    requires forall j :: 0 <= j < i ==> Lower(registry[j].className) != Lower(registry[i].className)
    ensures FindProvider(registry, Some(name)) == Success(registry[i])
  {
    assert NameMatches(registry[i], name);
    var r := FindProvider(registry, Some(name));
    var k :| 0 <= k < |registry| && registry[k] == r.value && NameMatches(r.value, name)
               && forall j :: 0 <= j < k ==> !NameMatches(registry[j], name);
    assert k == i;
  }

  /** Earlier entries take precedence: a later entry with the same lower-cased name is never returned. */
  lemma EarlierEntryWins(registry: seq<ProviderClass>, i: int, j: int, name: string)
    requires 0 <= i < j < |registry|
    requires NameMatches(registry[i], name) && NameMatches(registry[j], name)
    requires registry[j] !in registry[..i + 1]
    ensures FindProvider(registry, Some(name)).Success?
    ensures FindProvider(registry, Some(name)).value != registry[j]
  {
    var r := FindProvider(registry, Some(name));
    var k :| 0 <= k < |registry| && registry[k] == r.value && NameMatches(r.value, name)
               && forall m :: 0 <= m < k ==> !NameMatches(registry[m], name);
    assert k <= i;
    assert registry[k] in registry[..i + 1];
  }
}
