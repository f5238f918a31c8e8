/**
 Decoded JSON documents and the `safe_get` path lookup of api/run.py.
 */
module Json {
  import opened Wrappers

  /** A decoded JSON document, in the shapes Python's json module produces. */
  datatype J =
    | JNull
    | JBool(b: bool)
    | JNum(n: real)
    | JStr(s: string)
    | JArr(items: seq<J>)
    | JObj(fields: map<string, J>)

  /** One key of a lookup path: a dictionary key or a list index. */
  datatype Key = Name(name: string) | Index(index: int)

  /**
   One step of `safe_get`: descend into a dictionary through a key it holds,
   or into a list through an index in 0 .. len-1. JSON dictionaries only
   have string keys, so an integer key never finds a dictionary entry.
   */
  function Step(d: J, k: Key): (r: Option<J>)
    ensures d.JObj? && k.Name? ==>
      (r.Some? <==> k.name in d.fields) && (r.Some? ==> r.value == d.fields[k.name])
    ensures d.JArr? && k.Index? ==>
      (r.Some? <==> 0 <= k.index < |d.items|) && (r.Some? ==> r.value == d.items[k.index])
    ensures (d.JObj? && k.Index?) || (d.JArr? && k.Name?) ==> r.None?
    ensures !d.JObj? && !d.JArr? ==> r.None?
  {
    match (d, k)
    case (JObj(fields), Name(n)) => if n in fields then Some(fields[n]) else None
    case (JArr(items), Index(i)) => if 0 <= i < |items| then Some(items[i]) else None
    case _ => None
  }

  /**
   `safe_get(data, *keys, default=default)`: follow the keys from the first
   one on, and give up with `default` at the first step that fails.
   */
  function SafeGet(d: J, keys: seq<Key>, default: J): (r: J)
    ensures |keys| == 0 ==> r == d
    decreases |keys|
  {
    if |keys| == 0 then d
    else
      match Step(d, keys[0])
      case Some(child) => SafeGet(child, keys[1..], default)
      case None => default
  }

  /**
   The value the whole path leads to, or None when some step fails.
   Independent of `SafeGet`: it resolves the path up to its last key first
   and then takes the last step.
   */
  function Lookup(d: J, keys: seq<Key>): (r: Option<J>)
    ensures |keys| == 0 ==> r == Some(d)
    decreases |keys|
  {
    if |keys| == 0 then Some(d)
    else
      match Lookup(d, keys[..|keys| - 1])
      case Some(parent) => Step(parent, keys[|keys| - 1])
      case None => None
  }

  /** Resolving a path is the same as taking its first step and resolving the rest from there. */
  lemma {:induction false} LookupCons(d: J, k: Key, rest: seq<Key>)
    ensures Lookup(d, [k] + rest) == match Step(d, k) case Some(child) => Lookup(child, rest) case None => None
    decreases |rest|
  {
    var path := [k] + rest;
    if |rest| == 0 {
      assert path[..|path| - 1] == [];
    } else {
      assert path[..|path| - 1] == [k] + rest[..|rest| - 1];
      assert path[|path| - 1] == rest[|rest| - 1];
      LookupCons(d, k, rest[..|rest| - 1]);
    }
  }

  /**
   `safe_get` returns the value the path leads to when every step
   succeeds, and the default exactly when some step fails.
   */
  lemma {:induction false} SafeGetFollowsPath(d: J, keys: seq<Key>, default: J)
    ensures SafeGet(d, keys, default) == Lookup(d, keys).ValueOr(default)
    decreases |keys|
  {
    if |keys| > 0 {
      assert keys == [keys[0]] + keys[1..];
      LookupCons(d, keys[0], keys[1..]);
      match Step(d, keys[0])
      case Some(child) => SafeGetFollowsPath(child, keys[1..], default);
      case None =>
    }
  }

  /** Once a prefix of the path fails, no suffix can rescue the lookup. */
  lemma {:induction false} LookupFailureIsFinal(d: J, p: seq<Key>, q: seq<Key>)
    requires Lookup(d, p).None?
    ensures Lookup(d, p + q).None?
    decreases |q|
  {
    if |q| > 0 {
      var pq := p + q;
      assert pq[..|pq| - 1] == p + q[..|q| - 1];
      LookupFailureIsFinal(d, p, q[..|q| - 1]);
    } else {
      assert p + q == p;
    }
  }
}
