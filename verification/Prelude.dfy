/** Shared vocabulary: options, results, and counting the entries of a map. */
module Prelude {

  datatype Option<+T> = None | Some(value: T)

  datatype Result<+T, +E> = Ok(value: T) | Err(error: E)

  /** The keys of `m` whose value satisfies `p`. */
  ghost function Matching<K(!new), V>(m: map<K, V>, p: V -> bool): set<K> {
    set k | k in m && p(m[k])
  }

  /** How many entries of `m` have a value satisfying `p`. */
  ghost function Count<K(!new), V>(m: map<K, V>, p: V -> bool): nat {
    |Matching(m, p)|
  }

  /** Writing one entry decides that entry's membership and no other. */
  lemma MatchingUpdate<K(!new), V>(m: map<K, V>, k: K, v: V, p: V -> bool)
    ensures Matching(m[k := v], p) == Matching(m, p) - {k} + if p(v) then {k} else {}
  {
  }

  /** Writing one entry moves the count by what leaves and what arrives. */
  lemma CountUpdate<K(!new), V>(m: map<K, V>, k: K, v: V, p: V -> bool)
    ensures Count(m[k := v], p)
         == Count(m, p) - (if k in m && p(m[k]) then 1 else 0) + (if p(v) then 1 else 0)
  {
    var was := Matching(m, p);
    assert k in was <==> k in m && p(m[k]);
    MatchingUpdate(m, k, v, p);
    hide Matching;
    assert |was - {k}| == |was| - if k in was then 1 else 0;
  }

  lemma CountRemove<K(!new), V>(m: map<K, V>, k: K, p: V -> bool)
    ensures Count(m - {k}, p) == Count(m, p) - (if k in m && p(m[k]) then 1 else 0)
  {
    assert Matching(m - {k}, p) == Matching(m, p) - {k};
  }

  /** Two maps with disjoint keys count separately. */
  lemma CountMerge<K(!new), V>(m: map<K, V>, n: map<K, V>, p: V -> bool)
    requires m.Keys !! n.Keys
    ensures Count(m + n, p) == Count(m, p) + Count(n, p)
  {
    assert Matching(m + n, p) == Matching(m, p) + Matching(n, p);
  }

  /** Counting only looks at which keys qualify. */
  lemma CountSame<K(!new), V, W>(m: map<K, V>, p: V -> bool, n: map<K, W>, q: W -> bool)
    requires forall k :: (k in m && p(m[k])) <==> (k in n && q(n[k]))
    ensures Count(m, p) == Count(n, q)
  {
    assert Matching(m, p) == Matching(n, q);
  }

  lemma CountZero<K(!new), V>(m: map<K, V>, p: V -> bool)
    requires forall k :: k in m ==> !p(m[k])
    ensures Count(m, p) == 0
  {
    assert Matching(m, p) == {};
  }

  /** An entry that qualifies makes the count positive. */
  lemma CountPositive<K(!new), V>(m: map<K, V>, k: K, p: V -> bool)
    requires k in m && p(m[k])
    ensures Count(m, p) >= 1
  {
    assert k in Matching(m, p);
  }
}
