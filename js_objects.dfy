/** A plain JavaScript object as its list of own properties in insertion order. For
    keys that are not integer-like, such as the filter names and `sortBy`, this is the
    order `Object.entries` and object spread visit them in. */
module JsObjects {
  import opened Wrappers

  type Entries<V> = seq<(string, V)>

  /** `Object.keys(obj)`. */
  function Keys<V>(e: Entries<V>): (ks: seq<string>)
    ensures |ks| == |e|
    ensures forall i :: 0 <= i < |e| ==> ks[i] == e[i].0
  {
    if e == [] then [] else [e[0].0] + Keys(e[1..])
  }

  /** `obj[k]`: the value of the first property named `k`, or undefined. */
  function Get<V>(e: Entries<V>, k: string): (r: Option<V>)
    ensures r.Some? <==> k in Keys(e)
  {
    if e == [] then None else if e[0].0 == k then Some(e[0].1) else Get(e[1..], k)
  }

  /** `obj[k] = v` (and `{...obj, [k]: v}`): an existing property keeps its place and
      takes the new value; a new property goes to the end. */
  function Set<V>(e: Entries<V>, k: string, v: V): (r: Entries<V>)
    ensures Keys(r) == if k in Keys(e) then Keys(e) else Keys(e) + [k]
  {
    if e == [] then [(k, v)]
    else if e[0].0 == k then [(k, v)] + e[1..]
    else [e[0]] + Set(e[1..], k, v)
  }

  /** After `obj[k] = v`, reading `k` gives `v` and reading any other name gives what
      it gave before. */
  lemma {:induction false} GetSet<V>(e: Entries<V>, k: string, v: V, j: string)
    ensures Get(Set(e, k, v), j) == if j == k then Some(v) else Get(e, j)
  {
    if e != [] && e[0].0 != k {
      GetSet(e[1..], k, v, j);
    }
  }

  /** `GetSet` for every name at once. */
  lemma GetSetAll<V>(e: Entries<V>, k: string, v: V)
    ensures forall j :: Get(Set(e, k, v), j) == if j == k then Some(v) else Get(e, j)
  {
    forall j ensures Get(Set(e, k, v), j) == if j == k then Some(v) else Get(e, j) {
      GetSet(e, k, v, j);
    }
  }
}
