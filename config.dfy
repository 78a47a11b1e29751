/**
 * The YAML settings tree and its dotted-path lookup (utils/config.py).
 */
module Config {
  import opened Wrappers

  /** YAML mapping keys: names, or integers such as the face values under card_amounts. */
  datatype Key = Name(name: string) | Num(n: int)

  /** A parsed YAML value. */
  datatype Value =
    | Dict(entries: map<Key, Value>)
    | List(items: seq<Value>)
    | Str(s: string)
    | Int(i: int)
    | Bool(b: bool)
    | Null

  /** Python truthiness of a parsed value. */
  predicate Truthy(v: Value) {
    match v
    case Dict(m) => |m| > 0
    case List(xs) => |xs| > 0
    case Str(s) => |s| > 0
    case Int(i) => i != 0
    case Bool(b) => b
    case Null => false
  }

  datatype LoadError = NoYamlData | NotADictionary

  /**
   * The checks `load_yaml_config` makes on what the YAML parser returned:
   * nothing at all, or a top-level value that is not a mapping, is refused.
   */
  function CheckParsed(parsed: Option<Value>): (r: Result<Value, LoadError>)
    ensures r.Ok? <==> parsed.Some? && parsed.value.Dict?
    ensures r.Ok? ==> r.value == parsed.value
    ensures parsed.None? ==> r == Err(NoYamlData)
  {
    match parsed
    case None => Err(NoYamlData)
    case Some(v) => if v.Dict? then Ok(v) else Err(NotADictionary)
  }

  // ---- str.split(".") -------------------------------------------------

  /** Joining segments back with "." (the inverse of Split). */
  function Join(parts: seq<string>): string
    requires |parts| >= 1
  {
    if |parts| == 1 then parts[0] else parts[0] + "." + Join(parts[1..])
  }

  predicate DotFree(s: string) {
    forall i :: 0 <= i < |s| ==> s[i] != '.'
  }

  /**
   * Python's `key.split(".")`: always at least one segment, empty segments
   * kept ("a..b" gives three, "" gives one empty segment).
   */
  function Split(s: string): (parts: seq<string>)
    ensures |parts| >= 1
    ensures forall k :: 0 <= k < |parts| ==> DotFree(parts[k])
    ensures Join(parts) == s
    decreases |s|
  {
    if |s| == 0 then [""]
    else if s[0] == '.' then [""] + Split(s[1..])
    else
      var rest := Split(s[1..]);
      [[s[0]] + rest[0]] + rest[1..]
  }

  lemma {:induction false} SplitJoin(parts: seq<string>)
    requires |parts| >= 1
    requires forall k :: 0 <= k < |parts| ==> DotFree(parts[k])
    ensures Split(Join(parts)) == parts
    decreases |parts|, |parts[0]|
  {
    var p := parts[0];
    if |parts| == 1 {
      SplitDotFree(p);
    } else if |p| == 0 {
      var rest := Join(parts[1..]);
      assert Join(parts) == "." + rest;
      SplitJoin(parts[1..]);
      SplitConsDot(rest);
      assert parts == [""] + parts[1..];
    } else {
      var tail := [p[1..]] + parts[1..];
      assert tail[0] == p[1..] && tail[1..] == parts[1..];
      assert DotFree(tail[0]);
      assert forall k :: 0 <= k < |tail| ==> DotFree(tail[k]);
      SplitJoin(tail);
      var rest := Join(tail);
      assert rest == p[1..] + "." + Join(parts[1..]);
      assert Join(parts) == [p[0]] + rest;
      SplitConsChar(p[0], rest);
      assert [p[0]] + p[1..] == p;
      assert parts == [p] + parts[1..];
    }
  }

  lemma SplitConsDot(s: string)
    ensures Split("." + s) == [""] + Split(s)
  {
    assert ("." + s)[1..] == s;
  }

  lemma SplitConsChar(c: char, s: string)
    requires c != '.'
    ensures Split([c] + s) == [[c] + Split(s)[0]] + Split(s)[1..]
  {
    assert ([c] + s)[1..] == s;
  }

  lemma {:induction false} SplitDotFree(s: string)
    requires DotFree(s)
    ensures Split(s) == [s]
    decreases |s|
  {
    if |s| > 0 {
      SplitDotFree(s[1..]);
    }
  }

  // ---- the path walk ----------------------------------------------------

  /** Every segment of the path names an entry of a mapping, level by level. */
  predicate PathExists(v: Value, path: seq<string>) {
    if path == [] then true
    else v.Dict? && Name(path[0]) in v.entries && PathExists(v.entries[Name(path[0])], path[1..])
  }

  /** The value reached by following an existing path. */
  function ValueAt(v: Value, path: seq<string>): Value
    requires PathExists(v, path)
  {
    if path == [] then v else ValueAt(v.entries[Name(path[0])], path[1..])
  }

  /**
   * `get_config_value`: split the key on "." and walk the segments from the
   * root, returning `default` at the first segment that is missing or whose
   * parent is not a mapping; a configuration that failed to load (any
   * exception) also yields `default`.
   */
  method GetConfigValue(loaded: Result<Value, LoadError>, key: string, default: Value)
    returns (r: Value)
    ensures loaded.Err? ==> r == default
    ensures loaded.Ok? && PathExists(loaded.value, Split(key)) ==> r == ValueAt(loaded.value, Split(key))
    ensures loaded.Ok? && !PathExists(loaded.value, Split(key)) ==> r == default
  {
    if loaded.Err? {
      return default;
    }
    var keys := Split(key);
    var value := loaded.value;
    for i := 0 to |keys|
      invariant PathExists(loaded.value, keys[..i])
      invariant value == ValueAt(loaded.value, keys[..i])
    {
      WalkExtend(loaded.value, keys[..i], keys[i]);
      assert keys[..i + 1] == keys[..i] + [keys[i]];
      if value.Dict? && Name(keys[i]) in value.entries {
        value := value.entries[Name(keys[i])];
      } else {
        PrefixOfExisting(loaded.value, keys, i + 1);
        return default;
      }
    }
    assert keys[..|keys|] == keys;
    r := value;
  }

  /** Extending an existing path by one segment, as one loop step does. */
  lemma {:induction false} WalkExtend(v: Value, path: seq<string>, k: string)
    requires PathExists(v, path)
    ensures PathExists(v, path + [k]) <==>
      (ValueAt(v, path).Dict? && Name(k) in ValueAt(v, path).entries)
    ensures PathExists(v, path + [k]) ==>
      ValueAt(v, path + [k]) == ValueAt(v, path).entries[Name(k)]
  {
    if path != [] {
      assert (path + [k])[0] == path[0];
      assert (path + [k])[1..] == path[1..] + [k];
      WalkExtend(v.entries[Name(path[0])], path[1..], k);
    }
  }

  /** Every prefix of an existing path exists. */
  lemma {:induction false} PrefixOfExisting(v: Value, path: seq<string>, n: nat)
    requires n <= |path|
    ensures PathExists(v, path) ==> PathExists(v, path[..n])
  {
    if n > 0 && PathExists(v, path) {
      assert path[..n][1..] == path[1..][..n - 1];
      PrefixOfExisting(v.entries[Name(path[0])], path[1..], n - 1);
    }
  }

  /** A key without dots is a plain top-level lookup. */
  lemma DotFreeKeyIsTopLevel(m: map<Key, Value>, key: string)
    requires DotFree(key)
    ensures PathExists(Dict(m), Split(key)) <==> Name(key) in m
    ensures Name(key) in m ==> ValueAt(Dict(m), Split(key)) == m[Name(key)]
  {
    SplitDotFree(key);
  }

  /**
   * A top-level entry whose own name contains a dot is never what a lookup
   * of that name finds: replacing or removing it changes nothing.
   */
  lemma DottedTopLevelKeyNeverRead(m: map<Key, Value>, key: string, v: Value, d: Value)
    requires !DotFree(key)
    ensures PathExists(Dict(m[Name(key) := v]), Split(key)) <==> PathExists(Dict(m - {Name(key)}), Split(key))
    ensures PathExists(Dict(m[Name(key) := v]), Split(key)) ==>
      ValueAt(Dict(m[Name(key) := v]), Split(key)) == ValueAt(Dict(m - {Name(key)}), Split(key))
  {
    var parts := Split(key);
    assert parts[0] != key by {
      assert DotFree(parts[0]);
    }
    assert Name(parts[0]) != Name(key);
  }
}
