/** JSON values as Python's `json` module loads them: objects keep their
    keys in insertion order, as Python dictionaries do. */
module Json {
  import opened Wrappers
  import opened Text

  datatype Json =
    | Null
    | Bool(b: bool)
    | Int(i: int)
    | Num(r: real)
    | Str(s: string)
    | Arr(items: seq<Json>)
    | Obj(fields: seq<(string, Json)>)

  type Fields = seq<(string, Json)>

  function Keys(fields: Fields): (r: seq<string>)
    ensures |r| == |fields| && forall i :: 0 <= i < |fields| ==> r[i] == fields[i].0
  {
    seq(|fields|, i requires 0 <= i < |fields| => fields[i].0)
  }

  predicate HasKey(fields: Fields, k: string) {
    k in Keys(fields)
  }

  /** `d.get(k)`: the value of the first entry for `k`. */
  function Get(fields: Fields, k: string): (r: Option<Json>)
    ensures r.None? <==> !HasKey(fields, k)
    ensures r.Some? ==> exists i :: 0 <= i < |fields| && fields[i] == (k, r.value)
  {
    if fields == [] then None
    else if fields[0].0 == k then Some(fields[0].1)
    else Get(fields[1..], k)
  }

  /** `d.get(k)` read as a value: a missing key gives `None`. */
  function GetOrNull(fields: Fields, k: string): Json {
    Get(fields, k).GetOr(Null)
  }

  /** `d[k] = v`: the entry for `k` is replaced where it stands, or a new
      entry is appended. */
  function Set(fields: Fields, k: string, v: Json): (r: Fields)
  {
    if fields == [] then [(k, v)]
    else if fields[0].0 == k then [(k, v)] + fields[1..]
    else [fields[0]] + Set(fields[1..], k, v)
  }

  lemma {:induction false} SetGet(fields: Fields, k: string, v: Json, k': string)
    ensures Get(Set(fields, k, v), k') == if k' == k then Some(v) else Get(fields, k')
  {
    if fields != [] && fields[0].0 != k {
      SetGet(fields[1..], k, v, k');
    }
  }

  lemma {:induction false} SetKeys(fields: Fields, k: string, v: Json)
    ensures Keys(Set(fields, k, v)) == if HasKey(fields, k) then Keys(fields) else Keys(fields) + [k]
  {
    if fields == [] {
    } else if fields[0].0 == k {
      assert Keys(Set(fields, k, v)) == [k] + Keys(fields[1..]);
      assert Keys(fields) == [k] + Keys(fields[1..]);
    } else {
      SetKeys(fields[1..], k, v);
      assert Keys(fields) == [fields[0].0] + Keys(fields[1..]);
      assert Keys(Set(fields, k, v)) == [fields[0].0] + Keys(Set(fields[1..], k, v));
    }
  }

  /** Storing the value a key already has changes nothing. */
  lemma {:induction false} SetSame(fields: Fields, k: string, v: Json)
    requires Get(fields, k) == Some(v)
    ensures Set(fields, k, v) == fields
  {
    if fields[0].0 != k {
      SetSame(fields[1..], k, v);
    }
  }

  /** `del d[k]`, for a key that may appear more than once: every entry
      for `k` goes, the others stay in order. */
  function Delete(fields: Fields, k: string): (r: Fields)
    ensures !HasKey(r, k)
    ensures forall e :: e in r <==> e in fields && e.0 != k
  {
    if fields == [] then []
    else if fields[0].0 == k then Delete(fields[1..], k)
    else [fields[0]] + Delete(fields[1..], k)
  }

  /** Every entry after `d[k] = v` is the new one or an old one. */
  lemma {:induction false} SetEntries(fields: Fields, k: string, v: Json)
    ensures forall e :: e in Set(fields, k, v) ==> e == (k, v) || e in fields
  {
    if fields != [] && fields[0].0 != k {
      SetEntries(fields[1..], k, v);
    }
  }

  /** Python truthiness: `None`, `False`, zero, and empty strings, lists
      and dictionaries are false. */
  predicate Truthy(j: Json) {
    match j
    case Null => false
    case Bool(b) => b
    case Int(i) => i != 0
    case Num(r) => r != 0.0
    case Str(s) => s != []
    case Arr(items) => items != []
    case Obj(fields) => fields != []
  }

  /** What `for x in j` iterates over: list items, the one-character
      strings of a string, the keys of a dictionary; None where Python
      raises TypeError. */
  function Iterated(j: Json): (r: Option<seq<Json>>)
    ensures r.Some? <==> j.Arr? || j.Str? || j.Obj?
  {
    match j
    case Arr(items) => Some(items)
    case Str(s) => Some(seq(|s|, i requires 0 <= i < |s| => Str([s[i]])))
    case Obj(fields) => Some(seq(|fields|, i requires 0 <= i < |fields| => Str(fields[i].0)))
    case _ => None
  }

  /** `len(j)`: the number of items of a list, characters of a string or
      keys of a dictionary, which is also how many values `for x in j`
      visits; other values have no length. */
  function Len(j: Json): (r: Result<nat>)
    ensures r.Ok? <==> Iterated(j).Some?
    ensures r.Ok? ==> r.value == |Iterated(j).value|
    ensures r.Err? ==> r.error == TypeError
  {
    match j
    case Arr(items) => Ok(|items|)
    case Str(s) => Ok(|s|)
    case Obj(fields) => Ok(|fields|)
    case _ => Err(TypeError)
  }

  /** `j[k]` for a string key: a dictionary looks the key up, other values
      cannot be indexed by a string. */
  function Key(j: Json, k: string): (r: Result<Json>)
    ensures r.Ok? <==> j.Obj? && HasKey(j.fields, k)
    ensures r.Ok? ==> Some(r.value) == Get(j.fields, k)
    ensures r.Err? ==> r.error == if j.Obj? then KeyError else TypeError
  {
    if j.Obj? then
      match Get(j.fields, k)
      case Some(v) => Ok(v)
      case None => Err(KeyError)
    else Err(TypeError)
  }

  /** `j[0]`: the first item of a list or the first character of a
      string; a dictionary has no key 0. */
  function First(j: Json): (r: Result<Json>)
    ensures r.Ok? <==> (j.Arr? && j.items != []) || (j.Str? && j.s != [])
    ensures r.Ok? && j.Arr? ==> r.value == j.items[0]
    ensures r.Err? ==> r.error == if j.Arr? || j.Str? then IndexError else if j.Obj? then KeyError else TypeError
  {
    match j
    case Arr(items) => if items == [] then Err(IndexError) else Ok(items[0])
    case Str(s) => if s == [] then Err(IndexError) else Ok(Str([s[0]]))
    case Obj(_) => Err(KeyError)
    case _ => Err(TypeError)
  }

  /** Python's `k in j`: a key of a dictionary, an item of a list, a
      substring of a string; other values are not containers. */
  function In(k: string, j: Json): (r: Result<bool>)
    ensures r.Err? <==> !(j.Obj? || j.Arr? || j.Str?)
    ensures r.Err? ==> r.error == TypeError
    ensures j.Obj? ==> r == Ok(HasKey(j.fields, k))
    ensures j.Str? ==> r == Ok(Contains(j.s, k))
    ensures j.Arr? ==> r == Ok(Str(k) in j.items)
  {
    match j
    case Obj(fields) => Ok(HasKey(fields, k))
    case Arr(items) => Ok(Str(k) in items)
    case Str(s) => Ok(Contains(s, k))
    case _ => Err(TypeError)
  }
}
