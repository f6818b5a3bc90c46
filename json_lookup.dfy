/**
 * The `json` lookup of the legacy configuration: `${json:property|path}`
 * reads the JSON held by `property` and evaluates `path` in it.
 *
 * The legacy configuration's interpolator and substitutor, and the JSONPath
 * reader, are outside this model: they are passed in as functions.
 */
module JsonLookupModel {
  import opened Wrappers
  import opened Strings

  /** The separator between the property and the path. */
  const LOOKUP_SEPARATOR: char := '|'

  const SYNTAX_MESSAGE: string := "Json lookup must follow this syntax: ${json:propertyContainingJson|jsonPath}"

  /** Why a lookup failed. */
  datatype LookupFailure =
    | IllegalArgument(message: string)   // the argument is not `property|path`
    | ReadFailure(cause: string)          // the JSONPath reader failed

  /**
   * The argument split at every separator, with Java's trailing empty parts
   * dropped, must have exactly two parts: the property and the path.
   */
  function ParseArgument(s: string): (r: Result<(string, string), LookupFailure>)
    ensures r.Err? ==> r.error == IllegalArgument(SYNTAX_MESSAGE)
    ensures r.Ok? ==> LOOKUP_SEPARATOR !in r.value.0 && LOOKUP_SEPARATOR !in r.value.1
    ensures r.Ok? ==> r.value.1 != ""
  {
    var split := JavaSplit(s, LOOKUP_SEPARATOR);
    if |split| != 2 then
      Err(IllegalArgument(SYNTAX_MESSAGE))
    else
      JavaSplitShape(s, LOOKUP_SEPARATOR);
      Ok((split[0], split[1]))
  }

  /** A path that does not start with `$` is made relative to the root, `$.`. */
  function NormalizePath(path: string): (r: string)
    ensures |r| >= 1 && r[0] == '$'
    ensures |path| <= |r| && r[|r| - |path|..] == path
    ensures IsPrefix("$", path) <==> r == path
  {
    if IsPrefix("$", path) then path else "$." + path
  }

  /** Normalising twice is normalising once. */
  lemma NormalizeIdempotent(path: string)
    ensures NormalizePath(NormalizePath(path)) == NormalizePath(path)
  {
    var once := NormalizePath(path);
    assert once[..1] == "$";
  }

  /**
   * The lookup of `s`: the property (interpolated, then substituted) is read as
   * JSON at the substituted and normalised path.
   */
  function Lookup(s: string,
                  interpolate: string -> string,
                  substitute: string -> string,
                  read: (string, string) -> Result<string, string>): (r: Result<string, LookupFailure>)
    ensures ParseArgument(s).Err? ==> r == Err(IllegalArgument(SYNTAX_MESSAGE))
    ensures ParseArgument(s).Ok? ==>
      var (property, path) := ParseArgument(s).value;
      var json := substitute(interpolate(property));
      && (r.Ok? <==> read(json, NormalizePath(substitute(path))).Ok?)
      && (r.Ok? ==> r.value == read(json, NormalizePath(substitute(path))).value)
      && (r.Err? ==> r.error == ReadFailure(read(json, NormalizePath(substitute(path))).error))
  {
    match ParseArgument(s)
    case Err(e) => Err(e)
    case Ok((property, path)) =>
      var jsonPath := NormalizePath(substitute(path));
      match read(substitute(interpolate(property)), jsonPath)
      case Ok(v) => Ok(v)
      case Err(cause) => Err(ReadFailure(cause))
  }

  /**
   * Accepted arguments are exactly a separator-free property, the separator, a
   * non-empty separator-free path and any number of trailing separators.
   */
  lemma ParseArgumentAccepts(property: string, path: string, k: nat)
    requires LOOKUP_SEPARATOR !in property && LOOKUP_SEPARATOR !in path && path != ""
    ensures ParseArgument(property + [LOOKUP_SEPARATOR] + path + Repeat(LOOKUP_SEPARATOR, k)) == Ok((property, path))
  {
    var parts := [property, path];
    assert Join(parts, LOOKUP_SEPARATOR) == property + [LOOKUP_SEPARATOR] + path;
    JavaSplitOfJoin(parts, k, LOOKUP_SEPARATOR);
  }

  /** The converse: an accepted argument has that shape. */
  lemma ParseArgumentShape(s: string)
    requires ParseArgument(s).Ok?
    ensures var (property, path) := ParseArgument(s).value;
      exists k: nat :: s == property + [LOOKUP_SEPARATOR] + path + Repeat(LOOKUP_SEPARATOR, k)
  {
    var parts := JavaSplit(s, LOOKUP_SEPARATOR);
    JavaSplitShape(s, LOOKUP_SEPARATOR);
    assert Join(parts, LOOKUP_SEPARATOR) == parts[0] + [LOOKUP_SEPARATOR] + parts[1];
  }

  /** An argument without the separator is refused. */
  lemma NoSeparatorRefused(s: string)
    requires LOOKUP_SEPARATOR !in s
    ensures ParseArgument(s) == Err(IllegalArgument(SYNTAX_MESSAGE))
  {
    assert JavaSplit(s, LOOKUP_SEPARATOR) == [s];
  }

  /** `property|` has an empty path, which the split drops: refused. */
  lemma EmptyPathRefused(property: string)
    requires LOOKUP_SEPARATOR !in property
    ensures ParseArgument(property + [LOOKUP_SEPARATOR]).Err?
  {
    var s := property + [LOOKUP_SEPARATOR];
    SplitPrefixFree(property, [LOOKUP_SEPARATOR], LOOKUP_SEPARATOR);
    assert [LOOKUP_SEPARATOR][1..] == [];
    assert SplitAll([LOOKUP_SEPARATOR], LOOKUP_SEPARATOR) == ["", ""];
    assert property + "" == property;
    assert SplitAll(s, LOOKUP_SEPARATOR) == [property, ""];
  }

  /** Three non-empty parts are refused. */
  lemma ThreePartsRefused(a: string, b: string, c: string)
    requires LOOKUP_SEPARATOR !in a && LOOKUP_SEPARATOR !in b && LOOKUP_SEPARATOR !in c && c != ""
    ensures ParseArgument(a + [LOOKUP_SEPARATOR] + b + [LOOKUP_SEPARATOR] + c).Err?
  {
    var parts := [a, b, c];
    assert Join(parts[1..], LOOKUP_SEPARATOR) == b + [LOOKUP_SEPARATOR] + c;
    assert Join(parts, LOOKUP_SEPARATOR) == a + [LOOKUP_SEPARATOR] + b + [LOOKUP_SEPARATOR] + c;
    JavaSplitOfJoin(parts, 0, LOOKUP_SEPARATOR);
    assert Repeat(LOOKUP_SEPARATOR, 0) == [];
    assert Join(parts, LOOKUP_SEPARATOR) + Repeat(LOOKUP_SEPARATOR, 0) == Join(parts, LOOKUP_SEPARATOR);
  }

  /** An empty property is kept: `|path` reads the property named "". */
  lemma EmptyPropertyAccepted(path: string)
    requires LOOKUP_SEPARATOR !in path && path != ""
    ensures ParseArgument([LOOKUP_SEPARATOR] + path) == Ok(("", path))
  {
    ParseArgumentAccepts("", path, 0);
    assert "" + [LOOKUP_SEPARATOR] + path + Repeat(LOOKUP_SEPARATOR, 0) == [LOOKUP_SEPARATOR] + path;
  }

  /**
   * The reader gets the path unchanged when it starts with `$`, and below `$.`
   * otherwise.
   */
  lemma LookupPath(property: string, path: string,
                   interpolate: string -> string,
                   substitute: string -> string,
                   read: (string, string) -> Result<string, string>)
    requires LOOKUP_SEPARATOR !in property && LOOKUP_SEPARATOR !in path && path != ""
    ensures var r := Lookup(property + [LOOKUP_SEPARATOR] + path, interpolate, substitute, read);
      var json := substitute(interpolate(property));
      var p := substitute(path);
      r == (match read(json, if IsPrefix("$", p) then p else "$." + p)
            case Ok(v) => Ok(v)
            case Err(e) => Err(ReadFailure(e)))
  {
    ParseArgumentAccepts(property, path, 0);
    assert property + [LOOKUP_SEPARATOR] + path + Repeat(LOOKUP_SEPARATOR, 0) == property + [LOOKUP_SEPARATOR] + path;
  }
}
