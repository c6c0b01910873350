/** PHP values and ordered arrays, as far as the adapters use them. */
module Php {
  import opened Wrappers

  /** One `key => value` entry of a PHP array. Keys are strings: PHP turns a
      decimal-string key into the equal integer key, so the two compare alike. */
  datatype Pair<V> = Pair(key: string, val: V)

  /** A PHP value. A float is opaque and carried by its PHP string form
      ("1.5", "0", "INF", "NAN"). */
  datatype Value =
    | Null
    | Bool(b: bool)
    | Int(i: int)
    | Float(text: string)
    | Str(s: string)
    | Arr(entries: seq<Pair<Value>>)

  // ---------------------------------------------------------------------
  // Ordered arrays
  // ---------------------------------------------------------------------

  /** The keys of an array, in order. */
  function Keys<V>(m: seq<Pair<V>>): seq<string> {
    seq(|m|, i requires 0 <= i < |m| => m[i].key)
  }

  /** Every PHP array has pairwise distinct keys. */
  ghost predicate DistinctKeys<V>(m: seq<Pair<V>>) {
    forall i, j :: 0 <= i < j < |m| ==> m[i].key != m[j].key
  }

  lemma KeysTail<V>(m: seq<Pair<V>>)
    requires m != []
    ensures Keys(m) == [m[0].key] + Keys(m[1..])
  {
  }

  lemma KeysAppend<V>(m: seq<Pair<V>>, p: Pair<V>)
    ensures Keys(m + [p]) == Keys(m) + [p.key]
  {
  }

  lemma KeysConcat<V>(a: seq<Pair<V>>, b: seq<Pair<V>>)
    ensures Keys(a + b) == Keys(a) + Keys(b)
  {
  }

  lemma DistinctTail<V>(m: seq<Pair<V>>)
    requires m != [] && DistinctKeys(m)
    ensures DistinctKeys(m[1..]) && m[0].key !in Keys(m[1..])
  {
    forall j | 0 <= j < |m| - 1 ensures m[1..][j].key != m[0].key {
      assert m[j + 1].key != m[0].key;
    }
  }

  /** `$m[$k] ?? null`, with the absent case made explicit. */
  function Lookup<V>(m: seq<Pair<V>>, k: string): (r: Option<V>)
    ensures r.None? <==> k !in Keys(m)
    ensures r.Some? ==> Pair(k, r.value) in m
  {
    if m == [] then None
    else
      KeysTail(m);
      if m[0].key == k then Some(m[0].val) else Lookup(m[1..], k)
  }

  /** In an array with distinct keys, the entry stored under a key is what looking it up finds. */
  lemma {:induction false} LookupMember<V>(m: seq<Pair<V>>, k: string, v: V)
    requires DistinctKeys(m) && Pair(k, v) in m
    ensures Lookup(m, k) == Some(v)
  {
    if m[0] != Pair(k, v) {
      var j :| 0 <= j < |m| && m[j] == Pair(k, v);
      assert m[0].key != k by {
        assert j > 0 && m[0].key != m[j].key;
      }
      assert Pair(k, v) in m[1..] by {
        assert m[1..][j - 1] == m[j];
      }
      DistinctTail(m);
      LookupMember(m[1..], k, v);
    }
  }

  /** A lookup that only meets the keys of `a` never reaches what follows it. */
  lemma {:induction false} LookupPrefix<V>(a: seq<Pair<V>>, b: seq<Pair<V>>, k: string)
    ensures Lookup(a + b, k) == if k in Keys(a) then Lookup(a, k) else Lookup(b, k)
  {
    if a != [] {
      KeysTail(a);
      assert (a + b)[1..] == a[1..] + b;
      LookupPrefix(a[1..], b, k);
    } else {
      assert a + b == b;
    }
  }

  /** `$m[$k] = $v`: overwrite in place when the key is present, append otherwise. */
  function Put<V>(m: seq<Pair<V>>, k: string, v: V): (r: seq<Pair<V>>)
    ensures k !in Keys(m) ==> r == m + [Pair(k, v)]
    ensures k in Keys(m) ==> Keys(r) == Keys(m)
    ensures Pair(k, v) in r
    ensures forall e :: e in r ==> e in m || e == Pair(k, v)
  {
    if m == [] then [Pair(k, v)]
    else
      KeysTail(m);
      if m[0].key == k then [Pair(k, v)] + m[1..]
      else
        var rest := Put(m[1..], k, v);
        KeysTail([m[0]] + rest);
        assert ([m[0]] + rest)[1..] == rest;
        [m[0]] + rest
  }

  /** After `$m[$k] = $v`, `$m[$k]` is `$v` and every other key reads as before. */
  lemma {:induction false} PutLookup<V>(m: seq<Pair<V>>, k: string, v: V, j: string)
    ensures Lookup(Put(m, k, v), j) == if j == k then Some(v) else Lookup(m, j)
  {
    if m != [] && m[0].key != k {
      var rest := Put(m[1..], k, v);
      assert ([m[0]] + rest)[1..] == rest;
      PutLookup(m[1..], k, v, j);
    }
  }

  /** Assigning to a key never creates a second entry for it. */
  lemma PutKeepsDistinct<V>(m: seq<Pair<V>>, k: string, v: V)
    requires DistinctKeys(m)
    ensures DistinctKeys(Put(m, k, v))
  {
    var r := Put(m, k, v);
    if k in Keys(m) {
      assert Keys(r) == Keys(m);
      forall i, j | 0 <= i < j < |r| ensures r[i].key != r[j].key {
        assert r[i].key == Keys(m)[i] && r[j].key == Keys(m)[j];
      }
    } else {
      forall i | 0 <= i < |m| ensures m[i].key != k {
        assert Keys(m)[i] == m[i].key;
      }
    }
  }

  /** `$a + $b`: the entries of `b` whose keys `a` lacks, appended after `a`;
      on a shared key the entry already in `a` is kept. */
  function Union<V>(a: seq<Pair<V>>, b: seq<Pair<V>>): (r: seq<Pair<V>>)
    ensures |r| >= |a| && r[..|a|] == a
    ensures forall e :: e in r ==> e in a || e in b
    ensures forall k :: k in Keys(r) ==> k in Keys(a) || k in Keys(b)
    decreases |b|
  {
    if b == [] then a
    else
      KeysTail(b);
      if b[0].key in Keys(a) then Union(a, b[1..])
      else
        KeysAppend(a, b[0]);
        Union(a + [b[0]], b[1..])
  }

  /** Keys `a` already holds keep their value; the others read from `b`. */
  lemma {:induction false} UnionLookup<V>(a: seq<Pair<V>>, b: seq<Pair<V>>, k: string)
    ensures Lookup(Union(a, b), k) == if k in Keys(a) then Lookup(a, k) else Lookup(b, k)
    decreases |b|
  {
    if b != [] {
      KeysTail(b);
      if b[0].key in Keys(a) {
        UnionLookup(a, b[1..], k);
      } else {
        KeysAppend(a, b[0]);
        UnionLookup(a + [b[0]], b[1..], k);
        LookupPrefix(a, [b[0]], k);
      }
    }
  }

  lemma {:induction false} UnionKeepsDistinct<V>(a: seq<Pair<V>>, b: seq<Pair<V>>)
    requires DistinctKeys(a)
    ensures DistinctKeys(Union(a, b))
    decreases |b|
  {
    if b != [] {
      KeysTail(b);
      if b[0].key in Keys(a) {
        UnionKeepsDistinct(a, b[1..]);
      } else {
        assert DistinctKeys(a + [b[0]]) by {
          forall i | 0 <= i < |a| ensures a[i].key != b[0].key {
            assert Keys(a)[i] == a[i].key;
          }
        }
        UnionKeepsDistinct(a + [b[0]], b[1..]);
      }
    }
  }

  /** `array_merge($a, $b)` for string keys: the entries of `b` written into
      `a` one after another, so on a shared key the value from `b` wins while
      the key keeps its place in `a`. */
  function Merge<V>(a: seq<Pair<V>>, b: seq<Pair<V>>): (r: seq<Pair<V>>)
    ensures |r| >= |a| && Keys(r)[..|a|] == Keys(a)
    ensures forall k :: k in Keys(r) <==> k in Keys(a) || k in Keys(b)
    decreases |b|
  {
    if b == [] then a
    else
      KeysTail(b);
      var a' := Put(a, b[0].key, b[0].val);
      assert b[0].key !in Keys(a) ==> Keys(a') == Keys(a) + [b[0].key] by {
        if b[0].key !in Keys(a) { KeysAppend(a, b[0]); }
      }
      var r := Merge(a', b[1..]);
      assert Keys(r)[..|a|] == Keys(r)[..|a'|][..|a|];
      r
  }

  /** Keys the per-call array does not hold keep the default's value. */
  lemma {:induction false} MergeKeeps<V>(a: seq<Pair<V>>, b: seq<Pair<V>>, k: string)
    requires k !in Keys(b)
    ensures Lookup(Merge(a, b), k) == Lookup(a, k)
    decreases |b|
  {
    if b != [] {
      KeysTail(b);
      PutLookup(a, b[0].key, b[0].val, k);
      MergeKeeps(Put(a, b[0].key, b[0].val), b[1..], k);
    }
  }

  /** Per-call entries win: a key that `b` holds maps to `b`'s value after the merge. */
  lemma {:induction false} MergeOverrides<V>(a: seq<Pair<V>>, b: seq<Pair<V>>, k: string)
    requires DistinctKeys(b) && k in Keys(b)
    ensures Lookup(Merge(a, b), k) == Lookup(b, k)
    decreases |b|
  {
    KeysTail(b);
    DistinctTail(b);
    var a' := Put(a, b[0].key, b[0].val);
    PutLookup(a, b[0].key, b[0].val, k);
    if b[0].key != k {
      MergeOverrides(a', b[1..], k);
    } else {
      MergeKeeps(a', b[1..], k);
    }
  }

  /** `array_merge` of two arrays is an array: its keys stay distinct. */
  lemma {:induction false} MergeKeepsDistinct<V>(a: seq<Pair<V>>, b: seq<Pair<V>>)
    requires DistinctKeys(a)
    ensures DistinctKeys(Merge(a, b))
    decreases |b|
  {
    if b != [] {
      PutKeepsDistinct(a, b[0].key, b[0].val);
      MergeKeepsDistinct(Put(a, b[0].key, b[0].val), b[1..]);
    }
  }

  /** An entry's key does not occur before it. */
  lemma FreshKey<V>(m: seq<Pair<V>>, n: nat)
    requires DistinctKeys(m) && n < |m|
    ensures m[n].key !in Keys(m[..n])
  {
    forall i | 0 <= i < n ensures Keys(m[..n])[i] != m[n].key {
      assert m[..n][i] == m[i];
    }
  }

  /** Assigning the next entry of an array with distinct keys to the prefix
      before it extends that prefix by the entry. */
  lemma PutNextEntry<V>(m: seq<Pair<V>>, n: nat)
    requires DistinctKeys(m) && n < |m|
    ensures Put(m[..n], m[n].key, m[n].val) == m[..n + 1]
  {
    FreshKey(m, n);
    assert m[..n] + [Pair(m[n].key, m[n].val)] == m[..n + 1];
  }

  /** Two arrays without a key in common concatenate into an array. */
  lemma DisjointAppendDistinct<V>(a: seq<Pair<V>>, b: seq<Pair<V>>)
    requires DistinctKeys(a) && DistinctKeys(b)
    requires forall k :: k in Keys(b) ==> k !in Keys(a)
    ensures DistinctKeys(a + b)
  {
    var r := a + b;
    forall i, j | 0 <= i < j < |r| ensures r[i].key != r[j].key {
      if j < |a| {
        assert r[i] == a[i] && r[j] == a[j];
      } else if i < |a| {
        assert r[j] == b[j - |a|] && Keys(b)[j - |a|] == r[j].key;
        assert r[i] == a[i] && Keys(a)[i] == r[i].key;
        assert r[j].key !in Keys(a);
      } else {
        assert r[i] == b[i - |a|] && r[j] == b[j - |a|];
      }
    }
  }

  /** `array_merge` with a one-entry array is the assignment of that entry. */
  lemma MergeSingle<V>(m: seq<Pair<V>>, k: string, v: V)
    ensures Merge(m, [Pair(k, v)]) == Put(m, k, v)
  {
    assert [Pair(k, v)][1..] == [];
  }

  lemma AppendAfter<T>(a: seq<T>, p: T, rest: seq<T>)
    ensures (a + [p]) + rest == a + ([p] + rest)
  {
  }

  /** With no key in common, `array_merge` simply appends `b` after `a`. */
  lemma {:induction false} MergeDisjoint<V>(a: seq<Pair<V>>, b: seq<Pair<V>>)
    requires DistinctKeys(b)
    requires forall k :: k in Keys(b) ==> k !in Keys(a)
    ensures Merge(a, b) == a + b
    decreases |b|
  {
    if b != [] {
      var p := b[0];
      var rest := b[1..];
      KeysTail(b);
      DistinctTail(b);
      assert p.key in Keys(b);
      assert Put(a, p.key, p.val) == a + [p];
      var a' := a + [p];
      KeysAppend(a, p);
      assert forall k :: k in Keys(rest) ==> k !in Keys(a') by {
        forall k | k in Keys(rest) ensures k !in Keys(a') {
          assert k in Keys(b);
        }
      }
      MergeDisjoint(a', rest);
      assert Merge(a, b) == Merge(a', rest);
      assert b == [p] + rest;
      AppendAfter(a, p, rest);
    }
  }

  // ---------------------------------------------------------------------
  // Truthiness and string conversion
  // ---------------------------------------------------------------------

  /** PHP's conversion to bool, as `if ($v)` applies it. */
  predicate Truthy(v: Value) {
    match v
    case Null => false
    case Bool(b) => b
    case Int(i) => i != 0
    case Float(t) => t != "0" && t != "-0"
    case Str(s) => s != "" && s != "0"
    case Arr(es) => es != []
  }

  /** What `array_filter($query, fn($v) => !is_null($v) && $v !== '')` keeps. */
  predicate Kept(v: Value) {
    v != Null && v != Str("")
  }

  /** A truthy value is never dropped by the null/empty filter. */
  lemma TruthyIsKept(v: Value)
    requires Truthy(v)
    ensures Kept(v)
  {
  }

  function DigitChar(d: nat): char
    requires d < 10
  {
    "0123456789"[d]
  }

  /** Decimal digits of a natural number, most significant first. */
  function NatToString(n: nat): (r: string)
    ensures |r| > 0
    ensures forall i :: 0 <= i < |r| ==> '0' <= r[i] <= '9'
  {
    if n < 10 then [DigitChar(n)] else NatToString(n / 10) + [DigitChar(n % 10)]
  }

  function IntToString(i: int): string {
    if i < 0 then "-" + NatToString(-i) else NatToString(i)
  }

  /** PHP's conversion of a scalar to string (`.` concatenation). */
  function ToStr(v: Value): string {
    match v
    case Null => ""
    case Bool(b) => if b then "1" else ""
    case Int(i) => IntToString(i)
    case Float(t) => t
    case Str(s) => s
    case Arr(_) => "Array"
  }

  // ---------------------------------------------------------------------
  // The four filters of an array the adapters use
  // ---------------------------------------------------------------------

  /** `array_filter` with the "not null and not ''" callback; keys and order are kept. */
  function Filter(q: seq<Pair<Value>>): (r: seq<Pair<Value>>)
    ensures forall e :: e in r <==> e in q && Kept(e.val)
    ensures forall k :: k in Keys(r) ==> k in Keys(q)
    ensures DistinctKeys(q) ==> DistinctKeys(r)
  {
    if q == [] then []
    else
      KeysTail(q);
      var rest := Filter(q[1..]);
      if Kept(q[0].val) then
        KeysTail([q[0]] + rest);
        assert ([q[0]] + rest)[1..] == rest;
        assert DistinctKeys(q) ==> q[0].key !in Keys(q[1..]) by {
          if DistinctKeys(q) {
            forall j | 0 <= j < |q[1..]| ensures q[1..][j].key != q[0].key {
              assert q[j + 1].key != q[0].key;
            }
          }
        }
        [q[0]] + rest
      else rest
  }

  /** `array_filter` keeps the surviving entries in their order: filtering a
      concatenation filters each part and concatenates the results. */
  lemma {:induction false} FilterConcat(a: seq<Pair<Value>>, b: seq<Pair<Value>>)
    ensures Filter(a + b) == Filter(a) + Filter(b)
  {
    if a == [] {
      assert a + b == b;
    } else {
      assert (a + b)[0] == a[0];
      assert (a + b)[1..] == a[1..] + b;
      FilterConcat(a[1..], b);
    }
  }

  /** Looking a key up after filtering finds the original value exactly when the filter keeps it. */
  lemma FilterLookup(q: seq<Pair<Value>>, k: string)
    requires DistinctKeys(q)
    ensures Lookup(Filter(q), k) ==
            if Lookup(q, k).Some? && Kept(Lookup(q, k).value) then Lookup(q, k) else None
  {
    var f := Filter(q);
    var found := Lookup(q, k);
    if found.Some? && Kept(found.value) {
      var p := Pair(k, found.value);
      assert p in f;
      assert DistinctKeys(f);
      LookupMember(f, k, found.value);
    } else if Lookup(f, k).Some? {
      var v := Lookup(f, k).value;
      assert Pair(k, v) in q && Kept(v);
      LookupMember(q, k, v);
    }
  }

  // ---------------------------------------------------------------------
  // Strings
  // ---------------------------------------------------------------------

  /** `str_contains($s, $t)`: `t` occurs somewhere in `s`, not necessarily at the start. */
  function Contains(s: string, t: string): (r: bool)
    ensures r <==> exists i :: 0 <= i <= |s| - |t| && t <= s[i..]
    decreases |s|
  {
    if |s| < |t| then false
    else if t <= s then
      assert t <= s[0..];
      true
    else
      var r := Contains(s[1..], t);
      assert forall i :: 0 <= i <= |s| - 1 - |t| ==> s[1..][i..] == s[i + 1..];
      assert (exists i :: 0 <= i <= |s| - |t| && t <= s[i..]) ==> r by {
        if exists i :: 0 <= i <= |s| - |t| && t <= s[i..] {
          var i :| 0 <= i <= |s| - |t| && t <= s[i..];
          assert i != 0;
          assert t <= s[1..][i - 1..];
        }
      }
      r
  }

  /** A string without the letter 'h' cannot contain "http". */
  lemma NoHttpWithoutH(s: string)
    requires 'h' !in s
    ensures !Contains(s, "http")
  {
    forall i | 0 <= i <= |s| - 4 ensures !("http" <= s[i..]) {
      assert s[i..][0] == s[i];
    }

  }

  /** Every string that starts with "http" contains it. */
  lemma HttpPrefixContains(s: string)
    requires "http" <= s
    ensures Contains(s, "http")
  {
    assert s[0..] == s;
  }

  /** Position of the first `c` in `s` (`strpos`). */
  function IndexOf(s: string, c: char): (r: nat)
    requires c in s
    ensures r < |s| && s[r] == c && c !in s[..r]
  {
    if s[0] == c then 0
    else
      var r := IndexOf(s[1..], c);
      assert s[..r + 1] == [s[0]] + s[1..][..r];
      r + 1
  }

  predicate IsUpper(c: char) {
    'A' <= c <= 'Z'
  }

  /** No ASCII upper-case letter in `s`. */
  predicate IsLower(s: string) {
    forall i :: 0 <= i < |s| ==> !IsUpper(s[i])
  }

  function LowerChar(c: char): char {
    if IsUpper(c) then (c as int + 32) as char else c
  }

  /** `strtolower` (ASCII, as in PHP 8.2 and later). */
  function ToLower(s: string): (r: string)
    ensures |r| == |s| && IsLower(r)
    ensures forall i :: 0 <= i < |s| && !IsUpper(s[i]) ==> r[i] == s[i]
    ensures forall i :: 0 <= i < |s| && IsUpper(s[i]) ==> r[i] as int == s[i] as int + 32
  {
    seq(|s|, i requires 0 <= i < |s| => LowerChar(s[i]))
  }

  /** The characters `trim` strips: space, \t, \n, \r, \0 and \x0B. */
  predicate IsBlank(c: char) {
    c == ' ' || c == '\t' || c == '\n' || c == '\r' || c == '\0' || c as int == 0x0B
  }

  /** The first position from `lo` on that does not hold a blank. */
  function SkipBlanks(s: string, lo: nat): (b: nat)
    requires lo <= |s|
    ensures lo <= b <= |s| && (b == |s| || !IsBlank(s[b]))
    ensures forall i :: lo <= i < b ==> IsBlank(s[i])
    decreases |s| - lo
  {
    if lo == |s| || !IsBlank(s[lo]) then lo else SkipBlanks(s, lo + 1)
  }

  /** The end of `s[lo..hi]` once its trailing blanks are cut. */
  function CutBlanks(s: string, lo: nat, hi: nat): (e: nat)
    requires lo <= hi <= |s|
    ensures lo <= e <= hi && (e == lo || !IsBlank(s[e - 1]))
    ensures forall i :: e <= i < hi ==> IsBlank(s[i])
    decreases hi
  {
    if hi == lo || !IsBlank(s[hi - 1]) then hi else CutBlanks(s, lo, hi - 1)
  }

  /** `trim`: the slice of `s` between its leading and its trailing blanks. */
  function Trim(s: string): (r: string)
    ensures exists lo, hi :: && 0 <= lo <= hi <= |s| && r == s[lo..hi]
                             && (forall i :: 0 <= i < lo ==> IsBlank(s[i]))
                             && (forall i :: hi <= i < |s| ==> IsBlank(s[i]))
    ensures r == [] || (!IsBlank(r[0]) && !IsBlank(r[|r| - 1]))
    ensures (forall i :: 0 <= i < |s| ==> !IsBlank(s[i])) ==> r == s
  {
    var lo := SkipBlanks(s, 0);
    var hi := CutBlanks(s, lo, |s|);
    assert forall i :: 0 <= i < hi - lo ==> s[lo..hi][i] == s[lo + i];
    s[lo..hi]
  }

  /** Trimming never brings in a character the input lacks. */
  lemma TrimKeepsOut(s: string, c: char)
    requires c !in s
    ensures c !in Trim(s)
  {
    var lo, hi :| 0 <= lo <= hi <= |s| && Trim(s) == s[lo..hi];
    assert forall i :: 0 <= i < hi - lo ==> s[lo..hi][i] == s[lo + i];
  }

  /** Lower-casing works character by character, so it commutes with slicing. */
  lemma ToLowerSlice(s: string, lo: nat, hi: nat)
    requires lo <= hi <= |s|
    ensures ToLower(s)[lo..hi] == ToLower(s[lo..hi])
  {
    assert forall i :: 0 <= i < hi - lo ==> ToLower(s)[lo..hi][i] == LowerChar(s[lo..hi][i]);
  }

  /** The same for a suffix. */
  lemma ToLowerDrop(s: string, lo: nat)
    requires lo <= |s|
    ensures ToLower(s)[lo..] == ToLower(s[lo..])
  {
    assert forall i :: 0 <= i < |s| - lo ==> ToLower(s)[lo..][i] == LowerChar(s[lo..][i]);
  }

  /** Trimming a string without upper-case letters leaves none. */
  lemma TrimKeepsLower(s: string)
    requires IsLower(s)
    ensures IsLower(Trim(s))
  {
    var lo, hi :| 0 <= lo <= hi <= |s| && Trim(s) == s[lo..hi];
    assert forall i :: 0 <= i < hi - lo ==> s[lo..hi][i] == s[lo + i];
  }
}
