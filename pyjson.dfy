/**
 * JSON values and string-keyed dictionaries as the service sees them. A Python dict keeps
 * insertion order (the source relies on it through OrderedDict and on plain dicts), so a
 * dictionary is a sequence of (key, value) pairs; `d[k] = v` is `Put`.
 */
module PyJson {
  import opened Wrappers
  import opened Text

  type Dict<V> = seq<(string, V)>

  datatype Json =
    | Null
    | Bool(b: bool)
    | Num(n: int)
    | Str(s: string)
    | Arr(items: seq<Json>)
    | Obj(fields: Dict<Json>)

  function Keys<V>(d: Dict<V>): (ks: seq<string>)
    ensures |ks| == |d|
    ensures forall i :: 0 <= i < |d| ==> ks[i] == d[i].0
  {
    seq(|d|, i requires 0 <= i < |d| => d[i].0)
  }

  predicate HasKey<V>(d: Dict<V>, k: string) { k in Keys(d) }

  /** What every Python dict satisfies. */
  predicate UniqueKeys<V>(d: Dict<V>) {
    forall i, j :: 0 <= i < j < |d| ==> d[i].0 != d[j].0
  }

  /** `d[k]` when present. */
  function Lookup<V>(d: Dict<V>, k: string): (r: Option<V>)
    ensures r.Some? <==> HasKey(d, k)
    ensures r.Some? ==> (k, r.value) in d
    decreases |d|
  {
    if |d| == 0 then None
    else if d[0].0 == k then Some(d[0].1)
    else
      assert Keys(d) == [d[0].0] + Keys(d[1..]);
      Lookup(d[1..], k)
  }

  /** In a dict with unique keys the value stored under a key is the one found for it. */
  lemma {:induction false} LookupAt<V>(d: Dict<V>, i: nat)
    requires UniqueKeys(d) && i < |d|
    ensures Lookup(d, d[i].0) == Some(d[i].1)
    decreases i
  {
    if i > 0 {
      LookupAt(d[1..], i - 1);
    }
  }

  /** The value found for a key is the one at its first occurrence. */
  lemma {:induction false} LookupFirst<V>(d: Dict<V>, i: nat)
    requires i < |d|
    requires forall m :: 0 <= m < i ==> d[m].0 != d[i].0
    ensures Lookup(d, d[i].0) == Some(d[i].1)
    decreases i
  {
    if i > 0 {
      LookupFirst(d[1..], i - 1);
    }
  }

  /** Writing one key leaves the value found for every other key as it was. */
  lemma {:induction false} PutLookupOther<V>(d: Dict<V>, k: string, v: V, other: string)
    requires other != k
    ensures Lookup(Put(d, k, v), other) == Lookup(d, other)
    decreases |d|
  {
    if |d| > 0 && d[0].0 != k {
      PutLookupOther(d[1..], k, v, other);
    }
  }

  /** Python's `d.get(k, default)`. */
  function GetOr<V>(d: Dict<V>, k: string, default: V): (r: V)
    ensures HasKey(d, k) ==> Some(r) == Lookup(d, k)
    ensures !HasKey(d, k) ==> r == default
  {
    match Lookup(d, k)
    case Some(v) => v
    case None => default
  }

  /** Python's `d[k] = v`: overwrite in place when present, otherwise append at the end. */
  function Put<V>(d: Dict<V>, k: string, v: V): (r: Dict<V>)
    ensures |r| == if HasKey(d, k) then |d| else |d| + 1
    ensures !HasKey(d, k) ==> r == d + [(k, v)]
    decreases |d|
  {
    if |d| == 0 then [(k, v)]
    else if d[0].0 == k then [(k, v)] + d[1..]
    else
      assert Keys(d) == [d[0].0] + Keys(d[1..]);
      [d[0]] + Put(d[1..], k, v)
  }

  /** After `d[k] = v`, looking `k` up gives `v`, and the keys are those of `d` plus `k`. */
  lemma {:induction false} PutLookup<V>(d: Dict<V>, k: string, v: V)
    ensures Lookup(Put(d, k, v), k) == Some(v)
    ensures HasKey(d, k) ==> Keys(Put(d, k, v)) == Keys(d)
  {
    PutFinds(d, k, v);
    if HasKey(d, k) {
      PutKeepsKeys(d, k, v);
    }
  }

  lemma {:induction false} PutFinds<V>(d: Dict<V>, k: string, v: V)
    ensures Lookup(Put(d, k, v), k) == Some(v)
    decreases |d|
  {
    if |d| > 0 && d[0].0 != k {
      PutFinds(d[1..], k, v);
      assert Put(d, k, v) == [d[0]] + Put(d[1..], k, v);
      assert Put(d, k, v)[1..] == Put(d[1..], k, v);
    }
  }

  lemma PutKeepsKeys<V>(d: Dict<V>, k: string, v: V)
    requires HasKey(d, k)
    ensures Keys(Put(d, k, v)) == Keys(d)
  {
    var r := Put(d, k, v);
    forall i | 0 <= i < |d| ensures Keys(r)[i] == Keys(d)[i] {
      PutKeyAt(d, k, v, i);
    }
  }

  /** `d[k] = v` never moves or renames an existing key. */
  lemma {:induction false} PutKeyAt<V>(d: Dict<V>, k: string, v: V, i: nat)
    requires i < |d|
    ensures i < |Put(d, k, v)| && Put(d, k, v)[i].0 == d[i].0
    decreases |d|
  {
    if d[0].0 != k && i > 0 {
      PutKeyAt(d[1..], k, v, i - 1);
      assert Put(d, k, v) == [d[0]] + Put(d[1..], k, v);
    }
  }

  /** `d[k] = v` for a key no entry of `d` carries appends the pair at the end. */
  lemma PutFresh<V>(d: Dict<V>, k: string, v: V)
    requires forall m :: 0 <= m < |d| ==> d[m].0 != k
    ensures Put(d, k, v) == d + [(k, v)]
  {
    assert !HasKey(d, k);
  }

  // ---------------------------------------------------------------------------
  // Python operations on values of unknown type

  /** Python truthiness: None, False, 0, "" and empty containers are false. */
  predicate Truthy(j: Json) {
    match j
    case Null => false
    case Bool(b) => b
    case Num(n) => n != 0
    case Str(s) => s != ""
    case Arr(items) => items != []
    case Obj(fields) => fields != []
  }

  /**
   * Python's `key in container`: a key of a dict, a substring of a str, an element of a list;
   * for a number, a boolean or None it raises TypeError.
   */
  function PyContains(container: Json, key: string): (r: Result<bool>)
    ensures container.Obj? ==> r == Ok(HasKey(container.fields, key))
    ensures container.Str? ==> r == Ok(Contains(container.s, key))
    ensures container.Arr? ==> r == Ok(Str(key) in container.items)
    ensures r.Err? <==> container.Null? || container.Bool? || container.Num?
  {
    match container
    case Obj(fields) => Ok(HasKey(fields, key))
    case Str(s) => Ok(Contains(s, key))
    case Arr(items) => Ok(Str(key) in items)
    case _ => Err("TypeError: argument is not iterable")
  }

  /** Python's `value.get(key, default)`: only a dict has `get` (AttributeError otherwise). */
  function GetField(value: Json, key: string, default: Json): (r: Result<Json>)
    ensures r.Ok? <==> value.Obj?
    ensures value.Obj? ==> r.value == GetOr(value.fields, key, default)
  {
    if value.Obj? then Ok(GetOr(value.fields, key, default)) else Err("AttributeError: no attribute 'get'")
  }

  /** Python's `container[key]`: a present key of a dict; KeyError or TypeError otherwise. */
  function Subscript(container: Json, key: string): (r: Result<Json>)
    ensures r.Ok? <==> container.Obj? && HasKey(container.fields, key)
    ensures r.Ok? ==> Some(r.value) == Lookup(container.fields, key)
  {
    if container.Obj? then
      match Lookup(container.fields, key)
      case Some(v) => Ok(v)
      case None => Err("KeyError")
    else Err("TypeError: not subscriptable by str")
  }

  /** A value used where the source calls a str method on it (`replace`, `strip`, ...). */
  function AsStr(value: Json): (r: Result<string>)
    ensures r.Ok? <==> value.Str?
    ensures value.Str? ==> r.value == value.s
  {
    if value.Str? then Ok(value.s) else Err("AttributeError: not a str")
  }

  /**
   * Python's `str(value)` inside an f-string, for the scalar values; a list or a dict is
   * printed through `repr`, which this model does not reproduce (reported as an error).
   */
  function PyStr(value: Json): (r: Result<string>)
    ensures value.Str? ==> r == Ok(value.s)
    ensures r.Err? <==> value.Arr? || value.Obj?
  {
    match value
    case Str(s) => Ok(s)
    case Num(n) => Ok(IntToString(n))
    case Bool(b) => Ok(if b then "True" else "False")
    case Null => Ok("None")
    case _ => Err("repr of a container is not modelled")
  }
}
