/**
 * The `pick` helper of index.js: copy the listed keys of an options object into
 * a fresh object and delete them from the original, one key after another.
 */
module Options {
  import opened JsValues

  /** The set of keys that a call lists. */
  function KeySet(keys: seq<string>): (ks: set<string>) {
    set k | k in keys
  }

  /**
   * The (picked, remaining) pair after the loop has handled `keys` in order,
   * written as a fold over the last key: that key is copied from what is left
   * of the object so far (undefined if an earlier step deleted it), then deleted.
   */
  function PickSteps(o: map<string, Value>, keys: seq<string>): (res: (map<string, Value>, map<string, Value>))
    decreases |keys|
  {
    if keys == [] then (map[], o)
    else
      var prev := PickSteps(o, keys[..|keys| - 1]);
      var k := keys[|keys| - 1];
      (prev.0[k := Lookup(prev.1, k)], prev.1 - {k})
  }

  /**
   * What `pick` stores for key `k`: the object's original value, except that a
   * key listed twice reads the property its first occurrence already deleted.
   */
  ghost function PickedValue(o: map<string, Value>, keys: seq<string>, k: string): (v: Value) {
    if multiset(keys)[k] > 1 then Undefined else Lookup(o, k)
  }

  /** No key is listed twice. */
  ghost predicate Distinct(keys: seq<string>) {
    forall i, j :: 0 <= i < j < |keys| ==> keys[i] != keys[j]
  }

  /** The fold removes exactly the listed keys and picks each listed key's value. */
  lemma {:induction false} PickStepsMeaning(o: map<string, Value>, keys: seq<string>)
    ensures PickSteps(o, keys).1 == o - KeySet(keys)
    ensures PickSteps(o, keys).0.Keys == KeySet(keys)
    ensures forall k :: k in PickSteps(o, keys).0 ==> PickSteps(o, keys).0[k] == PickedValue(o, keys, k)
    decreases |keys|
  {
    if keys != [] {
      var init, last := keys[..|keys| - 1], keys[|keys| - 1];
      PickStepsMeaning(o, init);
      assert keys == init + [last];
      assert multiset(keys) == multiset(init) + multiset{last};
      assert KeySet(keys) == KeySet(init) + {last};
      var prev := PickSteps(o, init);
      var res := PickSteps(o, keys);
      assert res == (prev.0[last := Lookup(prev.1, last)], prev.1 - {last});
      assert res.0[last] == PickedValue(o, keys, last) by {
        assert last in init <==> multiset(init)[last] > 0;
      }
      forall k | k in res.0 && k != last
        ensures res.0[k] == PickedValue(o, keys, k)
      {
        assert multiset(keys)[k] == multiset(init)[k];
      }
    }
  }

  /** A list without repetitions counts every key at most once. */
  lemma {:induction false} DistinctCountsOnce(keys: seq<string>, k: string)
    requires Distinct(keys)
    ensures multiset(keys)[k] <= 1
    decreases |keys|
  {
    if keys != [] {
      var rest := keys[1..];
      assert keys == [keys[0]] + rest;
      assert multiset(keys) == multiset{keys[0]} + multiset(rest);
      assert Distinct(rest) by {
        forall i, j | 0 <= i < j < |rest| ensures rest[i] != rest[j] {
          assert rest[i] == keys[i + 1] && rest[j] == keys[j + 1];
        }
      }
      DistinctCountsOnce(rest, k);
      if keys[0] == k {
        assert k !in rest by {
          forall i | 0 <= i < |rest| ensures rest[i] != k {
            assert rest[i] == keys[i + 1];
          }
        }
      }
    }
  }

  /** With distinct keys, every listed key keeps the object's original value. */
  lemma PickDistinct(o: map<string, Value>, keys: seq<string>)
    requires Distinct(keys)
    ensures forall k :: k in keys ==> k in PickSteps(o, keys).0 && PickSteps(o, keys).0[k] == Lookup(o, k)
  {
    PickStepsMeaning(o, keys);
    forall k | k in keys ensures PickSteps(o, keys).0[k] == Lookup(o, k) {
      DistinctCountsOnce(keys, k);
    }
  }

  /**
   * `pick(object, ...keys)` on an object `o`: returns the picked object and what
   * is left of `o` after the keys were deleted from it.
   */
  method Pick(o: map<string, Value>, keys: seq<string>) returns (picked: map<string, Value>, remaining: map<string, Value>)
    ensures (picked, remaining) == PickSteps(o, keys)
    ensures remaining == o - KeySet(keys)
    ensures picked.Keys == KeySet(keys)
    ensures forall k :: k in picked ==> picked[k] == PickedValue(o, keys, k)
  {
    picked, remaining := map[], o;
    for i := 0 to |keys|
      invariant (picked, remaining) == PickSteps(o, keys[..i])
    {
      var key := keys[i];
      assert keys[..i + 1][..i] == keys[..i];
      picked := picked[key := Lookup(remaining, key)];
      remaining := remaining - {key};
    }
    assert keys[..|keys|] == keys;
    PickStepsMeaning(o, keys);
  }
}
