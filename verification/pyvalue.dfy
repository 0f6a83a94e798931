/** The Python values the scraper handles: decoded JSON documents and the
    dictionaries the client builds, with the handful of Python operations
    applied to them (`v[k]`, `k in v`, `v[k] = x`, truthiness, iteration)
    and the exceptions those operations raise. */
module PyValue {
  import opened Wrappers
  import opened Dicts

  /** `Null` is Python's `None` (JSON `null`). A `Dict` is insertion ordered. */
  datatype Value =
    | Null
    | Bool(b: bool)
    | Int(i: int)
    | Str(s: string)
    | List(items: seq<Value>)
    | Dict(entries: seq<(Value, Value)>)

  /** The exceptions that can escape the modelled code. */
  datatype Error =
    | KeyError(key: string)
    | TypeError
    | ValueError
    | HttpError(status: int)
    | JsonDecodeError

  /** Python truthiness: `None`, `False`, `0` and empty containers are false. */
  predicate Truthy(v: Value) {
    match v
    case Null => false
    case Bool(b) => b
    case Int(i) => i != 0
    case Str(s) => |s| > 0
    case List(items) => |items| > 0
    case Dict(entries) => |entries| > 0
  }

  /** Whether `v` may be used as a dictionary key (lists and dicts may not). */
  predicate Hashable(v: Value) {
    !v.List? && !v.Dict?
  }

  /** `v[key]` for a string key. */
  function Subscript(v: Value, key: string): (r: Result<Value, Error>)
    ensures r.Ok? <==> v.Dict? && Str(key) in Keys(v.entries)
    ensures r.Err? ==> r.error == (if v.Dict? then KeyError(key) else TypeError)
    ensures r.Ok? ==> Find(v.entries, Str(key)) == Some(r.value)
  {
    match v
    case Dict(entries) =>
      (match Find(entries, Str(key))
       case Some(x) => Ok(x)
       case None => Err(KeyError(key)))
    case _ => Err(TypeError)
  }

  predicate IsPrefix(p: string, s: string) {
    |p| <= |s| && s[..|p|] == p
  }

  predicate IsSubstring(p: string, s: string) {
    IsPrefix(p, s) || (|s| > 0 && IsSubstring(p, s[1..]))
  }

  /** `key in v` for a string key: a key of a dict, an element of a list,
      a substring of a string; other values are not containers. */
  function Contains(v: Value, key: string): (r: Result<bool, Error>)
    ensures v.Dict? ==> r == Ok(Str(key) in Keys(v.entries))
    ensures r.Err? <==> !(v.Dict? || v.List? || v.Str?)
  {
    match v
    case Dict(entries) => Ok(Str(key) in Keys(entries))
    case List(items) => Ok(Str(key) in items)
    case Str(s) => Ok(IsSubstring(key, s))
    case _ => Err(TypeError)
  }

  /** `v[key] = x` for a string key; only a dict supports it. */
  function SetItem(v: Value, key: string, x: Value): (r: Result<Value, Error>)
    ensures r.Ok? <==> v.Dict?
    ensures r.Ok? ==> r.value.Dict? && Subscript(r.value, key) == Ok(x)
  {
    match v
    case Dict(entries) =>
      FindUpdate(entries, Str(key), x, Str(key));
      Ok(Dict(Update(entries, Str(key), x)))
    case _ => Err(TypeError)
  }

  /** The elements `for x in v` visits: list items, dict keys, the
      one-character strings of a string. */
  function Iterate(v: Value): (r: Result<seq<Value>, Error>)
    ensures r.Ok? <==> v.List? || v.Dict? || v.Str?
    ensures r.Ok? ==> (|r.value| > 0 <==> Truthy(v))
    ensures v.List? ==> r == Ok(v.items)
    ensures v.Dict? ==> r == Ok(Keys(v.entries))
    ensures v.Str? ==> r.Ok? && |r.value| == |v.s| && forall i :: 0 <= i < |v.s| ==> r.value[i] == Str([v.s[i]])
  {
    match v
    case List(items) => Ok(items)
    case Dict(entries) => Ok(Keys(entries))
    case Str(s) => Ok(seq(|s|, i requires 0 <= i < |s| => Str([s[i]])))
    case _ => Err(TypeError)
  }

  /** `after` is the dict `before` with `after[key]` set to `x`: the same keys in
      the same order (`key` appended if it is new), `x` under `key`, and the
      old value under every other key. */
  ghost predicate SetOnly(before: Value, after: Value, key: string, x: Value) {
    && before.Dict?
    && after.Dict?
    && Keys(after.entries) ==
         (if Str(key) in Keys(before.entries) then Keys(before.entries) else Keys(before.entries) + [Str(key)])
    && Find(after.entries, Str(key)) == Some(x)
    && forall k :: k != Str(key) ==> Find(after.entries, k) == Find(before.entries, k)
  }

  /** `v[key] = x` changes exactly the entry under `key`. */
  lemma SetItemSetsOnly(v: Value, key: string, x: Value)
    requires SetItem(v, key, x).Ok?
    ensures SetOnly(v, SetItem(v, key, x).value, key, x)
  {
    forall k {
      FindUpdate(v.entries, Str(key), x, k);
    }
    KeysUpdate(v.entries, Str(key), x);
  }
}
