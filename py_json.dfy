/**
 * Decoded JSON as the WAQI sensor sees it: Python values built from JSON,
 * with the Python operations the sensor applies to them (subscription,
 * `dict.get`, iteration, truthiness, `str()`), each returning either a value
 * or the exception Python raises.
 */
module PyJson {
  import opened Wrappers

  /** `Null` is Python's None; an object keeps its keys in insertion order, as a dict does. */
  datatype Json =
    | Null
    | Bool(b: bool)
    | Num(n: int)
    | Str(s: string)
    | Arr(items: seq<Json>)
    | Obj(fields: seq<(string, Json)>)

  datatype PyError = KeyError | TypeError | AttributeError | IndexError

  /** A Python evaluation: a value, or the exception it raises. */
  datatype PyResult<+T> = Ok(value: T) | Raised(error: PyError) {
    predicate IsFailure() {
      Raised?
    }

    function PropagateFailure<U>(): PyResult<U>
      requires Raised?
    {
      Raised(error)
    }

    function Extract(): T
      requires Ok?
    {
      value
    }
  }

  predicate HasKey(fields: seq<(string, Json)>, key: string) {
    exists i :: 0 <= i < |fields| && fields[i].0 == key
  }

  /** The value stored under `key`. */
  function Find(fields: seq<(string, Json)>, key: string): (r: Option<Json>)
    ensures r.Some? <==> HasKey(fields, key)
    ensures r.Some? ==> (key, r.value) in fields
  {
    if fields == [] then None
    else if fields[0].0 == key then Some(fields[0].1)
    else
      var r := Find(fields[1..], key);
      assert HasKey(fields[1..], key) ==> HasKey(fields, key) by {
        if HasKey(fields[1..], key) {
          var i :| 0 <= i < |fields[1..]| && fields[1..][i].0 == key;
          assert fields[i + 1].0 == key;
        }
      }
      r
  }

  /** A dict decoded from JSON holds each key once. */
  predicate UniqueKeys(fields: seq<(string, Json)>) {
    forall i, j :: 0 <= i < j < |fields| ==> fields[i].0 != fields[j].0
  }

  lemma {:induction false} FindUnique(fields: seq<(string, Json)>, k: nat)
    requires UniqueKeys(fields) && k < |fields|
    ensures Find(fields, fields[k].0) == Some(fields[k].1)
  {
    if k > 0 {
      assert fields[0].0 != fields[k].0;
      assert UniqueKeys(fields[1..]) by {
        forall i, j | 0 <= i < j < |fields[1..]|
          ensures fields[1..][i].0 != fields[1..][j].0
        {
          assert fields[1..][i] == fields[i + 1] && fields[1..][j] == fields[j + 1];
        }
      }
      FindUnique(fields[1..], k - 1);
    }
  }

  /** The value reached from `v` by following object keys, when every step is an object holding the key. */
  function Path(v: Json, keys: seq<string>): Option<Json>
    decreases |keys|
  {
    if keys == [] then Some(v)
    else if v.Obj? && HasKey(v.fields, keys[0]) then Path(Find(v.fields, keys[0]).value, keys[1..])
    else None
  }

  function OrNull(o: Option<Json>): Json {
    if o.Some? then o.value else Null
  }

  /** Only None, booleans, numbers and strings can be dict keys or set members. */
  predicate Hashable(v: Json) {
    !v.Arr? && !v.Obj?
  }

  /** A value used as a list or string index: ints, and bools as 0 and 1. */
  function AsIndex(key: Json): Option<int> {
    match key
    case Num(n) => Some(n)
    case Bool(b) => Some(if b then 1 else 0)
    case _ => None
  }

  /** Python's reading of index `n` over `len` elements, negative indices counting from the end. */
  function Position(len: nat, n: int): (p: Option<nat>)
    ensures p.Some? <==> -(len as int) <= n < len
    ensures p.Some? ==> p.value < len && (p.value == n || p.value == len + n)
  {
    if 0 <= n < len then Some(n)
    else if -(len as int) <= n < 0 then Some(len + n)
    else None
  }

  /** `container[key]`. */
  function Index(container: Json, key: Json): PyResult<Json> {
    match container
    case Obj(fields) =>
      if !Hashable(key) then Raised(TypeError)
      else if key.Str? && HasKey(fields, key.s) then Ok(Find(fields, key.s).value)
      else Raised(KeyError)
    case Arr(items) =>
      (match AsIndex(key)
       case None => Raised(TypeError)
       case Some(n) =>
         (match Position(|items|, n)
          case None => Raised(IndexError)
          case Some(p) => Ok(items[p])))
    case Str(s) =>
      (match AsIndex(key)
       case None => Raised(TypeError)
       case Some(n) =>
         (match Position(|s|, n)
          case None => Raised(IndexError)
          case Some(p) => Ok(Str([s[p]]))))
    case _ => Raised(TypeError)
  }

  /** `container["key"]`: KeyError for an object without the key, TypeError for anything but an object. */
  function Subscript(container: Json, key: string): (r: PyResult<Json>)
    ensures container.Obj? && HasKey(container.fields, key) ==> r == Ok(Find(container.fields, key).value)
    ensures container.Obj? && !HasKey(container.fields, key) ==> r == Raised(KeyError)
    ensures !container.Obj? ==> r == Raised(TypeError)
  {
    Index(container, Str(key))
  }

  /** `container.get(key, default)`: only a dict has `get`. */
  function Get(container: Json, key: string, default: Json): PyResult<Json> {
    match container
    case Obj(fields) => Ok(if HasKey(fields, key) then Find(fields, key).value else default)
    case _ => Raised(AttributeError)
  }

  function KeysOf(fields: seq<(string, Json)>): (keys: seq<Json>)
    ensures |keys| == |fields|
    ensures forall i :: 0 <= i < |keys| ==> keys[i] == Str(fields[i].0)
  {
    seq(|fields|, i requires 0 <= i < |fields| => Str(fields[i].0))
  }

  /** `for x in container`: a list yields its items, a dict its keys, a string its characters. */
  function Iterate(container: Json): PyResult<seq<Json>> {
    match container
    case Arr(items) => Ok(items)
    case Obj(fields) => Ok(KeysOf(fields))
    case Str(s) => Ok(seq(|s|, i requires 0 <= i < |s| => Str([s[i]])))
    case _ => Raised(TypeError)
  }

  /** Python's truth value. */
  predicate Truthy(v: Json) {
    match v
    case Null => false
    case Bool(b) => b
    case Num(n) => n != 0
    case Str(s) => s != ""
    case Arr(items) => items != []
    case Obj(fields) => fields != []
  }

  /** `sep.join(parts)`. */
  function JoinStrings(parts: seq<string>, sep: string): string {
    if parts == [] then ""
    else if |parts| == 1 then parts[0]
    else parts[0] + sep + JoinStrings(parts[1..], sep)
  }

  /** Concatenation of a sequence of strings. */
  function Concat(parts: seq<string>): string {
    if parts == [] then "" else parts[0] + Concat(parts[1..])
  }

  /** Joining is the first part followed by the separator and each further part in turn. */
  lemma {:induction false} JoinStringsUnfolds(first: string, rest: seq<string>, sep: string)
    ensures JoinStrings([first] + rest, sep) == first + Concat(seq(|rest|, i requires 0 <= i < |rest| => sep + rest[i]))
    decreases |rest|
  {
    var tail := seq(|rest|, i requires 0 <= i < |rest| => sep + rest[i]);
    if rest == [] {
      assert [first] + rest == [first];
    } else {
      assert ([first] + rest)[1..] == [rest[0]] + rest[1..];
      JoinStringsUnfolds(rest[0], rest[1..], sep);
      var tail' := seq(|rest[1..]|, i requires 0 <= i < |rest[1..]| => sep + rest[1..][i]);
      assert tail[1..] == tail';
      assert Concat(tail) == sep + rest[0] + Concat(tail');
    }
  }

  function DigitChar(d: nat): char
    requires d < 10
  {
    "0123456789"[d]
  }

  function NatToString(n: nat): (s: string)
    ensures s != []
    decreases n
  {
    if n < 10 then [DigitChar(n)] else NatToString(n / 10) + [DigitChar(n % 10)]
  }

  /** `str(n)` for an int. */
  function IntToString(n: int): string {
    if n < 0 then "-" + NatToString(-n) else NatToString(n)
  }

  /** `repr(v)`, with strings in single quotes. */
  function Repr(v: Json): string
    decreases v
  {
    match v
    case Null => "None"
    case Bool(b) => if b then "True" else "False"
    case Num(n) => IntToString(n)
    case Str(s) => "'" + s + "'"
    case Arr(items) =>
      "[" + JoinStrings(seq(|items|, i requires 0 <= i < |items| => Repr(items[i])), ", ") + "]"
    case Obj(fields) =>
      "{" + JoinStrings(seq(|fields|, i requires 0 <= i < |fields| => "'" + fields[i].0 + "': " + Repr(fields[i].1)), ", ") + "}"
  }

  /** `str(v)` (what an f-string or `"{}".format` inserts). */
  function PyStr(v: Json): string {
    if v.Str? then v.s else Repr(v)
  }
}
