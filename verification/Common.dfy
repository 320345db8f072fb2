/** Small datatypes and set/sequence facts shared by the other modules. */
module Common {

  datatype Option<+T> = None | Some(value: T)

  datatype Result<+T, +E> = Ok(value: T) | Err(error: E)

  /** The value a map holds for a key, if any. */
  function Lookup<K, V>(m: map<K, V>, k: K): (o: Option<V>)
  {
    if k in m then Some(m[k]) else None
  }

  /** The first of two optional values that is present. */
  function OrElse<T>(a: Option<T>, b: Option<T>): Option<T>
  {
    if a.Some? then a else b
  }

  function ToSet<T>(s: seq<T>): set<T>
  {
    set x | x in s
  }

  ghost predicate Distinct<T>(s: seq<T>)
  {
    forall i, j :: 0 <= i < j < |s| ==> s[i] != s[j]
  }

  /** A sequence is at least as long as its set of elements; the two sizes
      agree exactly when no element repeats. */
  lemma {:induction false} SizeOfToSet<T>(s: seq<T>)
    ensures |ToSet(s)| <= |s|
    ensures |ToSet(s)| == |s| <==> Distinct(s)
  {
    if s == [] {
      assert ToSet(s) == {};
    } else {
      var front, last := s[..|s| - 1], s[|s| - 1];
      SizeOfToSet(front);
      assert s == front + [last];
      assert ToSet(s) == ToSet(front) + {last};
      if Distinct(s) {
        assert last !in front;
        assert Distinct(front);
      } else if last !in front {
        assert !Distinct(front) by {
          var i, j :| 0 <= i < j < |s| && s[i] == s[j];
          assert front[i] == front[j];
        }
      } else {
        assert ToSet(s) == ToSet(front);
      }
    }
  }

  lemma DistinctSnoc<T>(s: seq<T>, x: T)
    requires Distinct(s) && x !in s
    ensures Distinct(s + [x])
  {
  }

  lemma SubsetSize<T>(a: set<T>, b: set<T>)
    requires a <= b
    ensures |a| <= |b|
    ensures |a| == |b| ==> a == b
    ensures a != b ==> b - a != {}
  {
    assert b == a + (b - a);
    assert |b| == |a| + |b - a|;
  }

  /** Two maps that answer every lookup alike are equal. */
  lemma LookupsDecide<K(!new), V(!new)>(a: map<K, V>, b: map<K, V>)
    requires forall k :: Lookup(a, k) == Lookup(b, k)
    ensures a == b
  {
    forall k
      ensures k in a <==> k in b
      ensures k in a ==> a[k] == b[k]
    {
      assert Lookup(a, k) == Lookup(b, k);
    }
  }
}
