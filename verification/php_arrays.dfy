/**
 The PHP array operations the client relies on: an ordered list of
 key/value pairs (the literal query arrays), `array_filter` without a
 callback, reading an entry by key, and the left-biased array union `+`.
 */
module PhpArrays {
  import opened PhpValues

  /** One entry of an ordered PHP array with string keys. */
  type Pair = (string, PhpValue)

  /** An ordered PHP array with string keys, such as the query passed to `http_build_query`. */
  type Query = seq<Pair>

  /** The keys of an ordered array, in order. */
  function Keys(q: Query): (ks: seq<string>)
    ensures |ks| == |q|
    ensures forall i :: 0 <= i < |q| ==> ks[i] == q[i].0
  {
    seq(|q|, i requires 0 <= i < |q| => q[i].0)
  }

  /** No key occurs twice, as in every PHP array literal with distinct keys. */
  predicate DistinctKeys(q: Query) {
    forall i, j :: 0 <= i < j < |q| ==> q[i].0 != q[j].0
  }

  /** The value stored under `k`, if any (the first entry with that key). */
  function Get(q: Query, k: string): (r: Option<PhpValue>)
    ensures r.Some? <==> k in Keys(q)
    ensures r.Some? ==> (k, r.value) in q
  {
    if |q| == 0 then None
    else if q[0].0 == k then Some(q[0].1)
    else
      assert Keys(q) == [q[0].0] + Keys(q[1..]);
      Get(q[1..], k)
  }

  /** `a` can be obtained from `b` by deleting entries, keeping the order of the rest. */
  predicate IsSubseq<T(==)>(a: seq<T>, b: seq<T>)
    decreases |b|
  {
    if |b| == 0 then |a| == 0
    else (|a| > 0 && a[0] == b[0] && IsSubseq(a[1..], b[1..])) || IsSubseq(a, b[1..])
  }

  /**
   PHP's `array_filter($a)` without a callback: keeps, in their original
   order and with their original keys, exactly the entries whose value is
   truthy.
   */
  function ArrayFilter(s: Query): (r: Query)
    ensures |r| <= |s|
    ensures forall i :: 0 <= i < |r| ==> Truthy(r[i].1)
  {
    if |s| == 0 then []
    else if Truthy(s[0].1) then [s[0]] + ArrayFilter(s[1..])
    else ArrayFilter(s[1..])
  }

  /** `array_filter` keeps exactly the truthy entries: nothing is invented, nothing truthy is lost. */
  lemma {:induction false} FilterMembers(s: Query)
    ensures forall p :: p in ArrayFilter(s) <==> p in s && Truthy(p.1)
    decreases |s|
  {
    if |s| > 0 {
      FilterMembers(s[1..]);
      assert s == [s[0]] + s[1..];
    }
  }

  /** `array_filter` preserves the relative order of the entries it keeps. */
  lemma {:induction false} FilterSubseq(s: Query)
    ensures IsSubseq(ArrayFilter(s), s)
    decreases |s|
  {
    if |s| > 0 {
      FilterSubseq(s[1..]);
      var r := ArrayFilter(s);
      if Truthy(s[0].1) {
        assert r[1..] == ArrayFilter(s[1..]);
      } else if |r| > 0 {
        assert r[0] != s[0];
      }
    }
  }

  /** The value under `o` if there is one and it is truthy: what survives `array_filter`. */
  function Keep(o: Option<PhpValue>): Option<PhpValue> {
    if o.Some? && Truthy(o.value) then o else None
  }

  /** Deleting entries keeps the keys of the survivors in their original relative order. */
  lemma {:induction false} SubseqKeys(a: Query, b: Query)
    requires IsSubseq(a, b)
    ensures IsSubseq(Keys(a), Keys(b))
    decreases |b|
  {
    if |b| == 0 {
      assert Keys(a) == [];
    } else {
      assert Keys(b)[1..] == Keys(b[1..]);
      if |a| > 0 && a[0] == b[0] && IsSubseq(a[1..], b[1..]) {
        SubseqKeys(a[1..], b[1..]);
        assert Keys(a)[1..] == Keys(a[1..]);
      } else {
        SubseqKeys(a, b[1..]);
      }
    }
  }

  /** Every key of a subsequence is a key of the original array. */
  lemma {:induction false} SubseqKeysIncluded(a: Query, b: Query)
    requires IsSubseq(a, b)
    ensures forall k :: k in Keys(a) ==> k in Keys(b)
    decreases |b|
  {
    if |b| > 0 {
      assert Keys(b) == [b[0].0] + Keys(b[1..]);
      if |a| > 0 && a[0] == b[0] && IsSubseq(a[1..], b[1..]) {
        SubseqKeysIncluded(a[1..], b[1..]);
        assert Keys(a) == [a[0].0] + Keys(a[1..]);
      } else {
        SubseqKeysIncluded(a, b[1..]);
      }
    }
  }

  /** A subsequence of an array with distinct keys has distinct keys. */
  lemma {:induction false} SubseqDistinct(a: Query, b: Query)
    requires IsSubseq(a, b)
    requires DistinctKeys(b)
    ensures DistinctKeys(a)
    decreases |b|
  {
    if |b| > 0 {
      if |a| > 0 && a[0] == b[0] && IsSubseq(a[1..], b[1..]) {
        SubseqDistinct(a[1..], b[1..]);
        SubseqKeysIncluded(a[1..], b[1..]);
        assert b[0].0 !in Keys(b[1..]) by {
          forall i | 0 <= i < |b[1..]|
            ensures Keys(b[1..])[i] != b[0].0
          {
            assert b[1..][i] == b[i + 1];
          }
        }
        forall i, j | 0 <= i < j < |a|
          ensures a[i].0 != a[j].0
        {
          assert a[j] == a[1..][j - 1];
          assert a[j].0 in Keys(a[1..]);
          if i > 0 {
            assert a[i] == a[1..][i - 1];
          }
        }
      } else {
        SubseqDistinct(a, b[1..]);
      }
    }
  }

  /**
   On an array with distinct keys, reading key `k` after `array_filter`
   yields the original value when it is truthy and nothing otherwise.
   */
  lemma {:induction false} FilterGet(s: Query, k: string)
    requires DistinctKeys(s)
    ensures Get(ArrayFilter(s), k) == Keep(Get(s, k))
    decreases |s|
  {
    if |s| > 0 {
      FilterGet(s[1..], k);
      if s[0].0 == k {
        assert k !in Keys(s[1..]) by {
          forall i | 0 <= i < |s[1..]|
            ensures Keys(s[1..])[i] != k
          {
            assert s[1..][i] == s[i + 1];
          }
        }
      }
    }
  }

  /** On an array with distinct keys, the entry at position `i` is the one read back under its key. */
  lemma {:induction false} GetAt(s: Query, i: int)
    requires DistinctKeys(s)
    requires 0 <= i < |s|
    ensures Get(s, s[i].0) == Some(s[i].1)
    decreases i
  {
    if i > 0 {
      assert s[0].0 != s[i].0;
      GetAt(s[1..], i - 1);
    }
  }

  /** On an array with distinct keys, `array_filter` keeps the entry at position `i` exactly when its value is truthy. */
  lemma FilteredEntry(s: Query, i: int)
    requires DistinctKeys(s)
    requires 0 <= i < |s|
    ensures Get(ArrayFilter(s), s[i].0) == Keep(Some(s[i].1))
  {
    FilterGet(s, s[i].0);
    GetAt(s, i);
  }

  /**
   PHP's array union `$left + $right`: every key of `$left` keeps its value,
   and `$right` contributes only the keys `$left` lacks.
   */
  function PhpUnion<K, V>(left: map<K, V>, right: map<K, V>): (r: map<K, V>)
    ensures r.Keys == left.Keys + right.Keys
    ensures forall k :: k in left ==> r[k] == left[k]
    ensures forall k :: k in right && k !in left ==> r[k] == right[k]
  {
    right + left
  }
}
