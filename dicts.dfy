/** Python dict comprehensions and dict(zip(...)): building a dict from a
    list, where a later element with the same key replaces an earlier one. */
module Dicts {

  /** `{key(x): val(x) for x in xs}`. */
  function KeyedBy<T, V>(xs: seq<T>, key: T -> string, val: T -> V): (m: map<string, V>)
    ensures forall k :: k in m <==> exists i :: 0 <= i < |xs| && key(xs[i]) == k
    decreases |xs|
  {
    if xs == [] then map[]
    else
      var init := xs[..|xs| - 1];
      var m := KeyedBy(init, key, val);
      assert forall i :: 0 <= i < |init| ==> init[i] == xs[i];
      m[key(xs[|xs| - 1]) := val(xs[|xs| - 1])]
  }

  /** Later duplicates win: the entry for a key is built from the last
      element carrying that key. */
  lemma {:induction false} KeyedByLastWins<T, V>(xs: seq<T>, key: T -> string, val: T -> V, i: int)
    requires 0 <= i < |xs|
    requires forall j :: i < j < |xs| ==> key(xs[j]) != key(xs[i])
    ensures key(xs[i]) in KeyedBy(xs, key, val)
    ensures KeyedBy(xs, key, val)[key(xs[i])] == val(xs[i])
    decreases |xs|
  {
    if i < |xs| - 1 {
      var init := xs[..|xs| - 1];
      assert init[i] == xs[i];
      KeyedByLastWins(init, key, val, i);
    }
  }

  /** Building the dict one element further along is one more assignment,
      as a loop filling the dict does. */
  lemma KeyedByExtend<T, V>(xs: seq<T>, key: T -> string, val: T -> V, i: int)
    requires 0 <= i < |xs|
    ensures KeyedBy(xs[..i + 1], key, val) == KeyedBy(xs[..i], key, val)[key(xs[i]) := val(xs[i])]
  {
    assert xs[..i + 1][..i] == xs[..i];
  }

  /** The pairs of `zip(keys, vals)`: as many as the shorter side has. */
  function Zip<K, V>(keys: seq<K>, vals: seq<V>): (ps: seq<(K, V)>)
    ensures |ps| == if |keys| < |vals| then |keys| else |vals|
    ensures forall i :: 0 <= i < |ps| ==> ps[i] == (keys[i], vals[i])
  {
    var n := if |keys| < |vals| then |keys| else |vals|;
    seq(n, i requires 0 <= i < n => (keys[i], vals[i]))
  }
}
