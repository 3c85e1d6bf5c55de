/** The slice of the Python runtime the persistence layer relies on: optional
    values, raised exceptions, JSON-like values, insertion-ordered dicts and
    the process environment. */
module Runtime {

  datatype Option<+T> = None | Some(value: T)

  /** The exceptions the persistence layer raises or lets through. */
  datatype Error =
    | ValueError(message: string)
    | KeyError(key: string)
    | TypeError(message: string)
    | Failure(message: string)       // a bare `raise Exception(...)`
    | BackendError(reason: string)   // whatever the client library raised, passed on unchanged

  /** A call that either returns a value or raises. */
  datatype Result<+T> = Ok(value: T) | Err(error: Error)

  /** A value that can sit in a document, a filter or an update expression. */
  datatype Value =
    | VNone
    | VBool(b: bool)
    | VInt(i: int)
    | VStr(s: string)
    | VList(items: seq<Value>)
    | VTuple(elems: seq<Value>)
    | VDict(entries: seq<(string, Value)>)

  /** A dict with string keys, in insertion order (the order `items()` yields). */
  type Dict = seq<(string, Value)>

  /** Python truthiness, as used by `if x:` and `x or default`. */
  predicate Truthy(v: Value) {
    match v
    case VNone => false
    case VBool(b) => b
    case VInt(i) => i != 0
    case VStr(s) => s != ""
    case VList(xs) => xs != []
    case VTuple(xs) => xs != []
    case VDict(e) => e != []
  }

  /** `os.getenv(name)` passes `if not value` only when the variable is set and non-empty. */
  predicate Present(setting: Option<string>) {
    setting.Some? && setting.value != ""
  }

  /** `d.get(k)`: the value stored under `k`, if any. */
  function Get(d: Dict, k: string): Option<Value> {
    if d == [] then None
    else if d[0].0 == k then Some(d[0].1)
    else Get(d[1..], k)
  }

  /** `k in d` */
  predicate Has(d: Dict, k: string) {
    Get(d, k).Some?
  }

  /** `d[k] = v`: an existing key keeps its position, a new key goes last. */
  function Set(d: Dict, k: string, v: Value): Dict {
    if d == [] then [(k, v)]
    else if d[0].0 == k then [(k, v)] + d[1..]
    else [d[0]] + Set(d[1..], k, v)
  }

  /** `d.pop(k)` for its effect on `d`: the entry under `k` goes, the rest keep their order. */
  function Remove(d: Dict, k: string): Dict {
    if d == [] then []
    else if d[0].0 == k then Remove(d[1..], k)
    else [d[0]] + Remove(d[1..], k)
  }

  /** Every key occurs once, as in any Python dict. */
  predicate DistinctKeys(d: Dict) {
    d == [] || (!Has(d[1..], d[0].0) && DistinctKeys(d[1..]))
  }

  lemma {:induction false} GetSet(d: Dict, k: string, v: Value, k': string)
    ensures Get(Set(d, k, v), k') == if k' == k then Some(v) else Get(d, k')
  {
    if d != [] && d[0].0 != k {
      GetSet(d[1..], k, v, k');
    }
  }

  lemma {:induction false} GetRemove(d: Dict, k: string, k': string)
    ensures Get(Remove(d, k), k') == if k' == k then None else Get(d, k')
  {
    if d != [] {
      GetRemove(d[1..], k, k');
    }
  }

  lemma {:induction false} SetMissing(d: Dict, k: string, v: Value)
    requires !Has(d, k)
    ensures Set(d, k, v) == d + [(k, v)]
  {
    if d != [] {
      SetMissing(d[1..], k, v);
      assert [d[0]] + (d[1..] + [(k, v)]) == d + [(k, v)];
    }
  }

  lemma {:induction false} SetSame(d: Dict, k: string, v: Value)
    requires Get(d, k) == Some(v)
    ensures Set(d, k, v) == d
  {
    if d[0].0 != k {
      SetSame(d[1..], k, v);
    }
  }

  lemma {:induction false} SetPresentLength(d: Dict, k: string, v: Value)
    requires Has(d, k)
    ensures |Set(d, k, v)| == |d|
  {
    if d[0].0 != k {
      SetPresentLength(d[1..], k, v);
    }
  }

  lemma {:induction false} SetKeepsDistinct(d: Dict, k: string, v: Value)
    requires DistinctKeys(d)
    ensures DistinctKeys(Set(d, k, v))
  {
    if d != [] && d[0].0 != k {
      SetKeepsDistinct(d[1..], k, v);
      GetSet(d[1..], k, v, d[0].0);
    }
  }

  lemma {:induction false} RemoveKeepsDistinct(d: Dict, k: string)
    requires DistinctKeys(d)
    ensures DistinctKeys(Remove(d, k))
  {
    if d != [] {
      RemoveKeepsDistinct(d[1..], k);
      GetRemove(d[1..], k, d[0].0);
    }
  }

  lemma {:induction false} RemoveAppended(d: Dict, k: string, v: Value)
    requires !Has(d, k)
    ensures Remove(d + [(k, v)], k) == d
  {
    if d == [] {
      assert d + [(k, v)] == [(k, v)];
    } else {
      assert (d + [(k, v)])[1..] == d[1..] + [(k, v)];
      RemoveAppended(d[1..], k, v);
    }
  }

  /** A dict object owned by a caller: the layer writes into it in place, and
      the caller sees the writes. */
  class PyDict {
    var entries: Dict

    constructor (entries: Dict)
      ensures this.entries == entries
    {
      this.entries := entries;
    }

    /** `self[k] = v` */
    method SetItem(k: string, v: Value)
      modifies this
      ensures entries == Set(old(entries), k, v)
    {
      entries := Set(entries, k, v);
    }

    /** `self.pop(k)` on a key that is present. */
    method Pop(k: string) returns (v: Value)
      requires Has(entries, k)
      modifies this
      ensures Get(old(entries), k) == Some(v)
      ensures entries == Remove(old(entries), k)
    {
      v := Get(entries, k).value;
      entries := Remove(entries, k);
    }
  }

  /** The environment variables the layer reads with `os.getenv`. */
  datatype Env = Env(
    mongoUrl: Option<string>,        // MONGO_URL
    supabaseUrl: Option<string>,     // SUPABASE_URL
    serviceRoleKey: Option<string>)  // SUPABASE_SERVICE_ROLE_KEY
}
