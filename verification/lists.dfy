/** Kotlin's list searches, over Dafny sequences. */
module Lists {
  import opened Options

  /** The index of the first element satisfying `p`, or `|s|` when there is none. */
  function FirstIndex<T>(s: seq<T>, p: T -> bool): (i: nat)
    ensures i <= |s|
    ensures i < |s| ==> p(s[i])
    ensures forall j | 0 <= j < i :: !p(s[j])
    decreases |s|
  {
    if s == [] then 0
    else if p(s[0]) then 0
    else 1 + FirstIndex(s[1..], p)
  }

  /** `find { p }` (`firstOrNull`): the first element satisfying `p`, or null. */
  function Find<T>(s: seq<T>, p: T -> bool): (r: Option<T>)
    ensures r.None? <==> forall j | 0 <= j < |s| :: !p(s[j])
    ensures r.Some? ==> exists i | 0 <= i < |s| :: s[i] == r.value && p(s[i]) && forall j | 0 <= j < i :: !p(s[j])
  {
    var i := FirstIndex(s, p);
    if i < |s| then Some(s[i]) else None
  }

  /** Kotlin's `mapOf(k1 to v1, ...)`: the pairs entered in order, a later key overriding an earlier one. */
  function MapOf<K, V>(pairs: seq<(K, V)>): (m: map<K, V>)
    ensures m.Keys == set p | p in pairs :: p.0
    decreases |pairs|
  {
    if pairs == [] then map[]
    else
      var init := pairs[..|pairs| - 1];
      assert forall p | p in init :: p in pairs;
      assert forall p | p in pairs :: p in init || p == pairs[|pairs| - 1];
      MapOf(init)[pairs[|pairs| - 1].0 := pairs[|pairs| - 1].1]
  }

  /** With pairwise different keys, every pair's key looks up that pair's value. */
  lemma {:induction false} MapOfLookup<K, V>(pairs: seq<(K, V)>, i: nat)
    requires forall a, b | 0 <= a < b < |pairs| :: pairs[a].0 != pairs[b].0
    requires i < |pairs|
    ensures pairs[i].0 in MapOf(pairs) && MapOf(pairs)[pairs[i].0] == pairs[i].1
    decreases |pairs|
  {
    if i < |pairs| - 1 {
      var init := pairs[..|pairs| - 1];
      assert init[i] == pairs[i];
      MapOfLookup(init, i);
    }
  }

  /** Searches with predicates that agree on every element find the same index. */
  lemma {:induction false} FirstIndexAgrees<T>(s: seq<T>, p: T -> bool, q: T -> bool)
    requires forall j | 0 <= j < |s| :: p(s[j]) == q(s[j])
    ensures FirstIndex(s, p) == FirstIndex(s, q)
    decreases |s|
  {
    if s != [] && !p(s[0]) {
      FirstIndexAgrees(s[1..], p, q);
    }
  }

  /** Searches with predicates that agree on every element find the same element. */
  lemma FindAgrees<T>(s: seq<T>, p: T -> bool, q: T -> bool)
    requires forall j | 0 <= j < |s| :: p(s[j]) == q(s[j])
    ensures Find(s, p) == Find(s, q)
  {
    FirstIndexAgrees(s, p, q);
  }
}
