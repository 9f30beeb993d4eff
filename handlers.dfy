/**
 * What the two registries of the Discord module share: callables known only
 * by their identity, and the key order of a Python dict, which lists keys in
 * the order they were first inserted.
 */
module Handlers {

  /** A Python callable; `in` and `remove` compare callables by identity. */
  type Handler = nat

  /** No name occurs twice. */
  predicate Distinct(names: seq<string>)
  {
    forall i, j :: 0 <= i < j < |names| ==> names[i] != names[j]
  }

  /** `names` is `list(d.keys())` for a dict with keys `keys`: each key once. */
  ghost predicate KeyOrder(names: seq<string>, keys: set<string>)
  {
    Distinct(names) && forall n :: n in names <==> n in keys
  }

  /** The key order after `d[k] = v`: a new key goes last, an existing key keeps its place. */
  function Insert(names: seq<string>, keys: set<string>, k: string): (r: seq<string>)
    requires KeyOrder(names, keys)
    ensures KeyOrder(r, keys + {k})
    ensures k in keys ==> r == names
    ensures k !in keys ==> |r| == |names| + 1 && r[..|names|] == names && r[|names|] == k
  {
    if k in keys then names else names + [k]
  }
}
