/**
 The three Array methods the handlers call on the resource list, specialised
 to the predicate they are given there: "this record's `id` is `key`".
 */
module Arrays {
  import opened Json

  /** The callback `r => r.id === key`. */
  predicate Matches(r: Record, key: Option<Value>)
  {
    IdOf(r) == key
  }

  /** Some record of `s` has `id` equal to `key`. */
  predicate Contains(s: seq<Record>, key: Option<Value>)
  {
    exists i :: 0 <= i < |s| && Matches(s[i], key)
  }

  /** `i` is the first position of `s` whose record matches `key`. */
  predicate IsFirstMatch(s: seq<Record>, key: Option<Value>, i: int)
  {
    && 0 <= i < |s|
    && Matches(s[i], key)
    && forall j :: 0 <= j < i ==> !Matches(s[j], key)
  }

  /** No two records of `s` share an `id` (a missing `id` counts as the value
      `undefined`, which `===` also equates). */
  predicate DistinctIds(s: seq<Record>)
  {
    forall i, j :: 0 <= i < j < |s| ==> IdOf(s[i]) != IdOf(s[j])
  }

  /** `s.findIndex(r => r.id === key)`: the first matching position, or -1. */
  function FindIndex(s: seq<Record>, key: Option<Value>): (i: int)
    ensures i == -1 <==> !Contains(s, key)
    ensures i != -1 ==> IsFirstMatch(s, key, i)
  {
    if |s| == 0 then -1
    else if Matches(s[0], key) then 0
    else
      var k := FindIndex(s[1..], key);
      if k == -1 then
        assert forall j :: 0 < j < |s| ==> s[j] == s[1..][j - 1];
        -1
      else
        assert forall j :: 0 < j <= k ==> s[j] == s[1..][j - 1];
        k + 1
  }

  /** `s.find(r => r.id === key)`: the first matching record, or `undefined`. */
  function Find(s: seq<Record>, key: Option<Value>): (r: Option<Record>)
    ensures r.None? <==> !Contains(s, key)
    ensures r.Some? ==> exists i :: IsFirstMatch(s, key, i) && s[i] == r.value
  {
    var i := FindIndex(s, key);
    if i == -1 then None else Some(s[i])
  }

  /** `s.filter(r => r.id !== key)`: a fresh list of the records that do not
      match, in their original order. */
  function Without(s: seq<Record>, key: Option<Value>): (r: seq<Record>)
    ensures |r| <= |s|
    ensures forall x :: x in r <==> x in s && !Matches(x, key)
    ensures |r| == |s| <==> !Contains(s, key)
    ensures !Contains(s, key) ==> r == s
  {
    if |s| == 0 then []
    else
      assert s == [s[0]] + s[1..];
      assert Contains(s, key) <==> Matches(s[0], key) || Contains(s[1..], key) by {
        if Contains(s[1..], key) {
          var j :| 0 <= j < |s[1..]| && Matches(s[1..][j], key);
          assert Matches(s[j + 1], key);
        }
        if Contains(s, key) && !Matches(s[0], key) {
          var j :| 0 <= j < |s| && Matches(s[j], key);
          assert Matches(s[1..][j - 1], key);
        }
      }
      if Matches(s[0], key) then Without(s[1..], key)
      else [s[0]] + Without(s[1..], key)
  }

  /** Filtering distributes over concatenation: the survivors of `a` come
      before the survivors of `b`, each group in its own order. */
  lemma {:induction false} WithoutAppend(a: seq<Record>, b: seq<Record>, key: Option<Value>)
    ensures Without(a + b, key) == Without(a, key) + Without(b, key)
  {
    if |a| == 0 {
      assert a + b == b;
    } else {
      assert (a + b)[0] == a[0];
      assert (a + b)[1..] == a[1..] + b;
      WithoutAppend(a[1..], b, key);
    }
  }

  /** Filtering keeps every surviving record exactly as often as it occurs
      in `s`, and no copy of a removed one. */
  lemma {:induction false} WithoutCounts(s: seq<Record>, key: Option<Value>, x: Record)
    ensures multiset(Without(s, key))[x] == if Matches(x, key) then 0 else multiset(s)[x]
  {
    if |s| > 0 {
      assert s == [s[0]] + s[1..];
      WithoutCounts(s[1..], key, x);
    }
  }

  /** A survivor at the head of the list stays at the head of the result. */
  lemma WithoutHead(s: seq<Record>, key: Option<Value>)
    requires |s| > 0 && !Matches(s[0], key)
    ensures |Without(s, key)| > 0 && Without(s, key)[0] == s[0]
  {
  }

  /** Filtering keeps the relative order of the records it keeps: two
      survivors appear in the result in the order they had in `s`. */
  lemma WithoutKeepsOrder(s: seq<Record>, key: Option<Value>, i: int, j: int)
    requires 0 <= i < j < |s|
    requires !Matches(s[i], key) && !Matches(s[j], key)
    ensures exists p, q :: 0 <= p < q < |Without(s, key)|
                           && Without(s, key)[p] == s[i] && Without(s, key)[q] == s[j]
  {
    var a, b, c := s[..i], s[i..j], s[j..];
    assert s == a + (b + c);
    WithoutAppend(a, b + c, key);
    WithoutAppend(b, c, key);
    WithoutHead(b, key);
    WithoutHead(c, key);
    var wa, wb, wc := Without(a, key), Without(b, key), Without(c, key);
    var r := Without(s, key);
    assert r == wa + wb + wc;
    assert r[|wa|] == wb[0] == s[i];
    assert r[|wa| + |wb|] == wc[0] == s[j];
  }

  /** When ids are distinct, a filter that removes something removes exactly
      one record. */
  lemma {:induction false} WithoutRemovesOne(s: seq<Record>, key: Option<Value>)
    requires DistinctIds(s)
    requires Contains(s, key)
    ensures |Without(s, key)| == |s| - 1
  {
    var t := s[1..];
    assert DistinctIds(t) by {
      forall i, j | 0 <= i < j < |t|
        ensures IdOf(t[i]) != IdOf(t[j])
      {
        assert t[i] == s[i + 1] && t[j] == s[j + 1];
      }
    }
    if Matches(s[0], key) {
      assert !Contains(t, key) by {
        forall j | 0 <= j < |t|
          ensures !Matches(t[j], key)
        {
          assert t[j] == s[j + 1];
        }
      }
    } else {
      var j :| 0 <= j < |s| && Matches(s[j], key);
      assert Matches(t[j - 1], key);
      WithoutRemovesOne(t, key);
    }
  }

  /** Filtering keeps distinct ids distinct. */
  lemma {:induction false} WithoutKeepsDistinct(s: seq<Record>, key: Option<Value>)
    requires DistinctIds(s)
    ensures DistinctIds(Without(s, key))
  {
    if |s| > 0 {
      var t := s[1..];
      assert DistinctIds(t) by {
        forall i, j | 0 <= i < j < |t|
          ensures IdOf(t[i]) != IdOf(t[j])
        {
          assert t[i] == s[i + 1] && t[j] == s[j + 1];
        }
      }
      WithoutKeepsDistinct(t, key);
      if !Matches(s[0], key) {
        var w := Without(t, key);
        var r := [s[0]] + w;
        assert r == Without(s, key);
        forall x | x in w
          ensures IdOf(x) != IdOf(s[0])
        {
          var k :| 0 <= k < |t| && t[k] == x;
          assert x == s[k + 1];
        }
        forall i, j | 0 <= i < j < |r|
          ensures IdOf(r[i]) != IdOf(r[j])
        {
          if i == 0 {
            assert r[j] == w[j - 1];
            assert r[j] in w;
          } else {
            assert r[i] == w[i - 1] && r[j] == w[j - 1];
          }
        }
      }
    }
  }
}
