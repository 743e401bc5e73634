/**
 * Guava's `ImmutableMap.Builder` as the attribute builders use it: `put`
 * appends an entry, and `build()` yields the entries in insertion order or
 * throws IllegalArgumentException when a key was put twice.
 */
module AttributeMaps {
  import opened Wrappers

  type Entries<K, V> = seq<(K, V)>

  function Keys<K, V>(es: Entries<K, V>): (ks: seq<K>)
    ensures |ks| == |es|
    ensures forall i :: 0 <= i < |es| ==> ks[i] == es[i].0
  {
    if es == [] then [] else [es[0].0] + Keys(es[1..])
  }

  predicate HasKey<K(==), V>(es: Entries<K, V>, k: K)
  {
    exists i :: 0 <= i < |es| && es[i].0 == k
  }

  predicate DistinctKeys<K(==), V>(es: Entries<K, V>)
  {
    forall i, j :: 0 <= i < j < |es| ==> es[i].0 != es[j].0
  }

  /** The value of the first entry with key `k`. */
  function Get<K(==), V>(es: Entries<K, V>, k: K): (v: V)
    requires HasKey(es, k)
    ensures exists i :: 0 <= i < |es| && es[i] == (k, v)
  {
    if es[0].0 == k then es[0].1 else Get(es[1..], k)
  }

  /** `ImmutableMap.Builder.build()` */
  function Build<K(==), V>(es: Entries<K, V>): Result<Entries<K, V>>
  {
    if DistinctKeys(es) then Success(es) else Failure(DuplicateKey)
  }

  /** Appending one entry keeps the keys distinct exactly when its key is new. */
  lemma DistinctAppend<K, V>(es: Entries<K, V>, e: (K, V))
    ensures DistinctKeys(es + [e]) <==> DistinctKeys(es) && !HasKey(es, e.0)
  {
    var es' := es + [e];
    if DistinctKeys(es') {
      assert forall i, j :: 0 <= i < j < |es| ==> es[i] == es'[i] && es[j] == es'[j];
      assert forall i :: 0 <= i < |es| ==> es'[i].0 != es'[|es|].0;
    }
  }

  lemma HasKeyAppend<K, V>(es: Entries<K, V>, e: (K, V), k: K)
    ensures HasKey(es + [e], k) <==> HasKey(es, k) || e.0 == k
  {
    var es' := es + [e];
    if HasKey(es', k) && e.0 != k {
      var i :| 0 <= i < |es'| && es'[i].0 == k;
      assert es[i].0 == k;
    }
    if HasKey(es, k) {
      var i :| 0 <= i < |es| && es[i].0 == k;
      assert es'[i].0 == k;
    }
    assert es'[|es|] == e;
  }

  lemma HasKeyOfKeys<K, V>(es: Entries<K, V>, k: K)
    ensures HasKey(es, k) <==> k in Keys(es)
  {
    if k in Keys(es) {
      var i :| 0 <= i < |Keys(es)| && Keys(es)[i] == k;
      assert es[i].0 == k;
    }
  }

  /** A key that occurs at most once in the multiset of keys is not repeated. */
  lemma DistinctFromMultiset<K, V>(es: Entries<K, V>)
    requires forall k | k in multiset(Keys(es)) :: multiset(Keys(es))[k] == 1
    ensures DistinctKeys(es)
  {
    forall i, j | 0 <= i < j < |es|
      ensures es[i].0 != es[j].0
    {
      if es[i].0 == es[j].0 {
        RepeatInMultiset(es, i, j);
      }
    }
  }

  /** A repeated key is seen in the multiset of keys. */
  lemma RepeatInMultiset<K, V>(es: Entries<K, V>, i: nat, j: nat)
    requires i < j < |es| && es[i].0 == es[j].0
    ensures multiset(Keys(es))[es[i].0] >= 2
  {
    RepeatCounted(Keys(es), i, j);
  }

  lemma RepeatCounted<K>(ks: seq<K>, i: nat, j: nat)
    requires i < j < |ks| && ks[i] == ks[j]
    ensures multiset(ks)[ks[i]] >= 2
  {
    var k := ks[i];
    var front, back := ks[..j], ks[j + 1..];
    assert ks == front + [k] + back;
    assert front[i] == k;
    assert multiset(ks) == multiset(front) + multiset{k} + multiset(back);
  }

  /** No element of `ks` occurs twice, stated head by head. */
  predicate NoRepeats<K(==)>(ks: seq<K>)
  {
    ks == [] || (ks[0] !in ks[1..] && NoRepeats(ks[1..]))
  }

  lemma NoRepeatsCons<K>(k: K, ks: seq<K>)
    requires NoRepeats(ks) && k !in ks
    ensures NoRepeats([k] + ks)
  {
    assert ([k] + ks)[1..] == ks;
  }

  lemma NotInCons<K>(k: K, x: K, xs: seq<K>)
    requires k != x && k !in xs
    ensures k !in [x] + xs
  {
  }

  lemma {:induction false} NoRepeatsPairwise<K>(ks: seq<K>)
    requires NoRepeats(ks)
    ensures forall i, j :: 0 <= i < j < |ks| ==> ks[i] != ks[j]
  {
    if ks != [] {
      NoRepeatsPairwise(ks[1..]);
      forall i, j | 0 <= i < j < |ks|
        ensures ks[i] != ks[j]
      {
        if i == 0 {
          assert ks[j] == ks[1..][j - 1];
        } else {
          assert ks[i] == ks[1..][i - 1] && ks[j] == ks[1..][j - 1];
        }
      }
    }
  }

  predicate HasAll<K(==), V>(es: Entries<K, V>, keys: set<K>)
  {
    forall k | k in keys :: HasKey(es, k)
  }

  /**
   * The `validate()` shared by the attribute builders: build the map (a
   * repeated key throws IllegalArgumentException), then demand every key of
   * `required` (IllegalStateException).
   */
  function Validated<K(==), V>(es: Entries<K, V>, required: set<K>): Result<Entries<K, V>>
  {
    if !DistinctKeys(es) then Failure(DuplicateKey)
    else if !HasAll(es, required) then Failure(IllegalState)
    else Success(es)
  }

  lemma HasAllAppend<K, V>(es: Entries<K, V>, e: (K, V), keys: set<K>)
    ensures HasAll(es + [e], keys) <==> HasAll(es, keys - {e.0})
  {
    forall k | k in keys
      ensures HasKey(es + [e], k) <==> HasKey(es, k) || e.0 == k
    {
      HasKeyAppend(es, e, k);
    }
  }

  /**
   * Validating after one last `put(e)`: success exactly when no key repeats,
   * `e`'s key is new, and the other required keys were put; the map is the
   * entries in put order with `e` last.
   */
  lemma ValidatedAppend<K, V>(es: Entries<K, V>, e: (K, V), required: set<K>)
    ensures Validated(es + [e], required).Success? <==>
      DistinctKeys(es) && !HasKey(es, e.0) && HasAll(es, required - {e.0})
    ensures Validated(es + [e], required).Success? ==> Validated(es + [e], required).value == es + [e]
    ensures Validated(es + [e], required).Failure? && DistinctKeys(es) && !HasKey(es, e.0) ==>
      Validated(es + [e], required) == Failure(IllegalState)
    ensures !DistinctKeys(es) || HasKey(es, e.0) ==> Validated(es + [e], required) == Failure(DuplicateKey)
  {
    DistinctAppend(es, e);
    HasAllAppend(es, e, required);
  }

  /** Entries whose keys are exactly `ks`: which keys they hold, and whether they repeat one. */
  lemma KeysAre<K, V>(es: Entries<K, V>, ks: seq<K>)
    requires Keys(es) == ks
    ensures forall k :: HasKey(es, k) <==> k in ks
    ensures DistinctKeys(es) <==> forall i, j :: 0 <= i < j < |ks| ==> ks[i] != ks[j]
  {
    forall k
      ensures HasKey(es, k) <==> k in ks
    {
      HasKeyOfKeys(es, k);
    }
  }

  /** Puts of the distinct keys `ks`, covering `required`: validation succeeds. */
  lemma CoveringKeysValid<K, V>(es: Entries<K, V>, required: set<K>, ks: seq<K>)
    requires Keys(es) == ks && NoRepeats(ks)
    requires forall k | k in required :: k in ks
    ensures Validated(es, required) == Success(es)
  {
    NoRepeatsPairwise(ks);
    KeysAre(es, ks);
  }

  /** Puts of the distinct keys `ks`, then `e` under a new key, covering `required`: validation succeeds. */
  lemma CoveringKeysValidate<K, V>(es: Entries<K, V>, e: (K, V), required: set<K>, ks: seq<K>)
    requires Keys(es) == ks && NoRepeats(ks) && e.0 !in ks
    requires forall k | k in required && k != e.0 :: k in ks
    ensures Validated(es + [e], required) == Success(es + [e])
  {
    NoRepeatsPairwise(ks);
    KeysAre(es, ks);
    ValidatedAppend(es, e, required);
  }

  /** Puts of the distinct keys `ks`, then `e` under a new key, missing a required `k`: validation throws IllegalStateException. */
  lemma MissingKeyValidate<K, V>(es: Entries<K, V>, e: (K, V), required: set<K>, ks: seq<K>, k: K)
    requires Keys(es) == ks && NoRepeats(ks) && e.0 !in ks
    requires k in required && k != e.0 && k !in ks
    ensures Validated(es + [e], required) == Failure(IllegalState)
  {
    NoRepeatsPairwise(ks);
    KeysAre(es, ks);
    ValidatedAppend(es, e, required);
  }
}
