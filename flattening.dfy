/** The bracket-key flattening that turns a nested parameter array into the
    single-level field list of a multipart/form-data body. */
module Flattening {
  import opened Wrappers
  import opened Php

  /** `$prefix ? "{$prefix}[{$key}]" : $key`; the test is PHP truthiness, so
      the prefix "0" counts as empty. */
  function FinalKey(prefix: string, key: string): (r: string)
    ensures r == key <==> prefix == "" || prefix == "0"
    ensures Truthy(Str(prefix)) ==> r == prefix + "[" + key + "]"
  {
    if Truthy(Str(prefix)) then prefix + "[" + key + "]" else key
  }

  /** The output array after the loop has visited the first `n` entries of `data`:
      a nested array is added with `+=` (keys already present win), a scalar is
      assigned (the later write wins). */
  function FlattenUpTo(data: seq<Pair<Value>>, prefix: string, n: nat): (r: seq<Pair<Value>>)
    requires n <= |data|
    ensures forall e :: e in r ==> !e.val.Arr?
    ensures DistinctKeys(r)
    ensures Truthy(Str(prefix)) ==> forall k :: k in Keys(r) ==> prefix + "[" <= k
    decreases Arr(data), n
  {
    if n == 0 then []
    else
      var acc := FlattenUpTo(data, prefix, n - 1);
      var key := FinalKey(prefix, data[n - 1].key);
      assert data[n - 1] in data;
      match data[n - 1].val
      case Arr(kids) =>
        var nested := FlattenUpTo(kids, key, |kids|);
        UnionKeepsDistinct(acc, nested);
        NestedKeysUnderPrefix(prefix, data[n - 1].key, nested);
        Union(acc, nested)
      case _ =>
        PutKeepsDistinct(acc, key, data[n - 1].val);
        var r := Put(acc, key, data[n - 1].val);
        assert forall k :: k in Keys(r) ==> k in Keys(acc) || k == key by {
          if key !in Keys(acc) { KeysAppend(acc, Pair(key, data[n - 1].val)); }
        }
        assert Truthy(Str(prefix)) ==> prefix + "[" <= key by {
          if Truthy(Str(prefix)) { assert key == (prefix + "[") + (data[n - 1].key + "]"); }
        }
        r
  }

  /** A key nested under `prefix[key]` is also nested under `prefix`. */
  lemma NestedKeysUnderPrefix(prefix: string, key: string, nested: seq<Pair<Value>>)
    requires Truthy(Str(FinalKey(prefix, key))) ==> forall k :: k in Keys(nested) ==> FinalKey(prefix, key) + "[" <= k
    ensures Truthy(Str(prefix)) ==> forall k :: k in Keys(nested) ==> prefix + "[" <= k
  {
    if Truthy(Str(prefix)) {
      var final := FinalKey(prefix, key);
      assert final == (prefix + "[") + (key + "]");
      assert |final| >= 3;
      forall k | k in Keys(nested) ensures prefix + "[" <= k {
        assert final + "[" <= k;
        assert (prefix + "[") <= final + "[";
      }
    }
  }

  /** What the loop does with entry `n`: a nested array is added with `+=`,
      anything else is assigned under its final key. */
  lemma FlattenStep(data: seq<Pair<Value>>, prefix: string, n: nat)
    requires n < |data|
    ensures var acc, key := FlattenUpTo(data, prefix, n), FinalKey(prefix, data[n].key);
            FlattenUpTo(data, prefix, n + 1) ==
              if data[n].val.Arr? then Union(acc, FlattenUpTo(data[n].val.entries, key, |data[n].val.entries|))
              else Put(acc, key, data[n].val)
  {
  }

  /** `flatten($data, $prefix)`. */
  function Flatten(data: seq<Pair<Value>>, prefix: string): (r: seq<Pair<Value>>)
    ensures forall e :: e in r ==> !e.val.Arr?
    ensures DistinctKeys(r)
    ensures DistinctKeys(data) && (forall e :: e in data ==> !e.val.Arr?) && !Truthy(Str(prefix)) ==> r == data
  {
    FlatInputUnchanged(data, prefix);
    FlattenUpTo(data, prefix, |data|)
  }

  /** The whole-input case of `FlattenFlatIsIdentity`. */
  lemma FlatInputUnchanged(data: seq<Pair<Value>>, prefix: string)
    ensures DistinctKeys(data) && (forall e :: e in data ==> !e.val.Arr?) && !Truthy(Str(prefix)) ==>
              FlattenUpTo(data, prefix, |data|) == data
  {
    if DistinctKeys(data) && (forall e :: e in data ==> !e.val.Arr?) && !Truthy(Str(prefix)) {
      FlattenFlatIsIdentity(data, prefix, |data|);
      assert data[..|data|] == data;
    }
  }

  /** No nested arrays and an empty prefix: every entry is assigned to its own
      fresh key, so the array comes back unchanged. */
  lemma {:induction false} FlattenFlatIsIdentity(data: seq<Pair<Value>>, prefix: string, n: nat)
    requires DistinctKeys(data) && n <= |data|
    requires forall e :: e in data ==> !e.val.Arr?
    requires !Truthy(Str(prefix))
    ensures FlattenUpTo(data, prefix, n) == data[..n]
  {
    if n > 0 {
      FlattenFlatIsIdentity(data, prefix, n - 1);
      FlatEntryStep(data, prefix, n - 1);
    }
  }

  /** One step of the above: a scalar entry under an empty prefix is appended
      as it stands. */
  lemma FlatEntryStep(data: seq<Pair<Value>>, prefix: string, m: nat)
    requires DistinctKeys(data) && m < |data| && !data[m].val.Arr?
    requires !Truthy(Str(prefix)) && FlattenUpTo(data, prefix, m) == data[..m]
    ensures FlattenUpTo(data, prefix, m + 1) == data[..m + 1]
  {
    assert FinalKey(prefix, data[m].key) == data[m].key;
    FlattenStep(data, prefix, m);
    PutNextEntry(data, m);
  }

  /** The prefix "0" behaves exactly like no prefix at all. */
  lemma {:induction false} ZeroPrefixIsEmpty(data: seq<Pair<Value>>, n: nat)
    requires n <= |data|
    ensures FlattenUpTo(data, "0", n) == FlattenUpTo(data, "", n)
  {
    if n > 0 {
      ZeroPrefixIsEmpty(data, n - 1);
    }
  }

  /** A scalar child `k` is written under `prefix[k]` (or `k` with no prefix),
      and as the latest write it holds its own value there. */
  lemma ScalarWrittenUnderFinalKey(data: seq<Pair<Value>>, prefix: string, n: nat)
    requires 0 < n <= |data| && !data[n - 1].val.Arr?
    ensures Lookup(FlattenUpTo(data, prefix, n), FinalKey(prefix, data[n - 1].key)) == Some(data[n - 1].val)
  {
    var acc := FlattenUpTo(data, prefix, n - 1);
    PutLookup(acc, FinalKey(prefix, data[n - 1].key), data[n - 1].val, FinalKey(prefix, data[n - 1].key));
  }

  /** A nested result never overwrites a key the output already holds. */
  lemma NestedKeepsExisting(data: seq<Pair<Value>>, prefix: string, n: nat, k: string)
    requires 0 < n <= |data| && data[n - 1].val.Arr?
    requires k in Keys(FlattenUpTo(data, prefix, n - 1))
    ensures Lookup(FlattenUpTo(data, prefix, n), k) == Lookup(FlattenUpTo(data, prefix, n - 1), k)
  {
    var kids := data[n - 1].val.entries;
    UnionLookup(FlattenUpTo(data, prefix, n - 1), FlattenUpTo(kids, FinalKey(prefix, data[n - 1].key), |kids|), k);
  }

  /** `{a: {b: 1}}` flattens to the single field `a[b] = 1`. */
  lemma NestedExample()
    ensures Flatten([Pair("a", Arr([Pair("b", Int(1))]))], "") == [Pair("a[b]", Int(1))]
  {
    var inner := [Pair("b", Int(1))];
    var outer := [Pair("a", Arr(inner))];
    assert FinalKey("a", "b") == "a[b]";
    assert FlattenUpTo(inner, "a", 0) == [];
    assert FlattenUpTo(inner, "a", 1) == [Pair("a[b]", Int(1))];
    assert FinalKey("", "a") == "a";
    assert FlattenUpTo(outer, "", 0) == [];
    assert Union([], [Pair("a[b]", Int(1))]) == [Pair("a[b]", Int(1))];
  }
}
