/** The order PHP's `ksort` uses for the string keys of this library (`strcmp`, byte by byte),
    and `ksort` itself on key/value sequences whose keys are distinct, as PHP array keys are. */
module KeyOrder {

  /** `strcmp(a, b) < 0`: lexicographic order on characters, a proper prefix first. */
  predicate Less(a: string, b: string)
    decreases |a|
  {
    |b| > 0 && (|a| == 0 || a[0] < b[0] || (a[0] == b[0] && Less(a[1..], b[1..])))
  }

  lemma {:induction false} LessIrreflexive(a: string)
    ensures !Less(a, a)
  {
    if |a| > 0 {
      LessIrreflexive(a[1..]);
    }
  }

  lemma {:induction false} LessTransitive(a: string, b: string, c: string)
    requires Less(a, b) && Less(b, c)
    ensures Less(a, c)
  {
    if |a| > 0 && a[0] == b[0] && b[0] == c[0] {
      LessTransitive(a[1..], b[1..], c[1..]);
    }
  }

  lemma {:induction false} LessTotal(a: string, b: string)
    ensures a == b || Less(a, b) || Less(b, a)
  {
    if |a| > 0 && |b| > 0 && a[0] == b[0] {
      LessTotal(a[1..], b[1..]);
      if a[1..] == b[1..] {
        assert a == [a[0]] + a[1..] && b == [b[0]] + b[1..];
      }
    }
  }

  /** No two entries share a key: every PHP array has this shape. */
  predicate DistinctKeys<V>(s: seq<(string, V)>) {
    forall i, j :: 0 <= i < j < |s| ==> s[i].0 != s[j].0
  }

  /** Keys strictly ascending: what `ksort` leaves behind. */
  predicate StrictlySorted<V>(s: seq<(string, V)>) {
    forall i, j :: 0 <= i < j < |s| ==> Less(s[i].0, s[j].0)
  }

  /** Sorted entries have distinct keys. */
  lemma SortedDistinct<V>(s: seq<(string, V)>)
    requires StrictlySorted(s)
    ensures DistinctKeys(s)
  {
    forall i, j | 0 <= i < j < |s|
      ensures s[i].0 != s[j].0
    {
      LessIrreflexive(s[i].0);
    }
  }

  /** Inserts `e` in front of the first entry whose key is not below `e`'s key. */
  function Insert<V>(e: (string, V), s: seq<(string, V)>): seq<(string, V)> {
    if |s| == 0 || Less(e.0, s[0].0) then [e] + s else [s[0]] + Insert(e, s[1..])
  }

  /** `ksort($a)`: the entries of `s`, ordered by key. */
  function KSort<V>(s: seq<(string, V)>): seq<(string, V)> {
    if |s| == 0 then [] else Insert(s[0], KSort(s[1..]))
  }

  lemma {:induction false} InsertPermutes<V>(e: (string, V), s: seq<(string, V)>)
    ensures multiset(Insert(e, s)) == multiset(s) + multiset{e}
  {
    if |s| > 0 && !Less(e.0, s[0].0) {
      InsertPermutes(e, s[1..]);
      assert s == [s[0]] + s[1..];
    }
  }

  lemma {:induction false} KSortPermutes<V>(s: seq<(string, V)>)
    ensures multiset(KSort(s)) == multiset(s)
  {
    if |s| > 0 {
      KSortPermutes(s[1..]);
      InsertPermutes(s[0], KSort(s[1..]));
      assert s == [s[0]] + s[1..];
    }
  }

  lemma {:induction false} InsertSorted<V>(e: (string, V), s: seq<(string, V)>)
    requires StrictlySorted(s)
    requires forall x :: x in s ==> x.0 != e.0
    ensures StrictlySorted(Insert(e, s))
  {
    if |s| == 0 {
    } else if Less(e.0, s[0].0) {
      forall j | 0 < j < |s|
        ensures Less(e.0, s[j].0)
      {
        LessTransitive(e.0, s[0].0, s[j].0);
      }
    } else {
      assert s[0] in s;
      LessTotal(e.0, s[0].0);
      assert forall x :: x in s[1..] ==> x in s;
      InsertSorted(e, s[1..]);
      var t := Insert(e, s[1..]);
      InsertPermutes(e, s[1..]);
      forall j | 0 <= j < |t|
        ensures Less(s[0].0, t[j].0)
      {
        assert t[j] in multiset(t);
        if t[j] != e {
          assert t[j] in multiset(s[1..]);
          var k :| 0 <= k < |s[1..]| && s[1..][k] == t[j];
          assert s[k + 1] == t[j];
        }
      }
      assert Insert(e, s) == [s[0]] + t;
    }
  }

  lemma {:induction false} KSortSorted<V>(s: seq<(string, V)>)
    requires DistinctKeys(s)
    ensures StrictlySorted(KSort(s))
  {
    if |s| > 0 {
      assert DistinctKeys(s[1..]);
      KSortSorted(s[1..]);
      KSortPermutes(s[1..]);
      forall x | x in KSort(s[1..])
        ensures x.0 != s[0].0
      {
        assert x in multiset(s[1..]);
        var k :| 0 <= k < |s[1..]| && s[1..][k] == x;
        assert s[k + 1] == x;
      }
      InsertSorted(s[0], KSort(s[1..]));
    }
  }

  /** Two key-sorted sequences holding the same entries are the same sequence. */
  lemma {:induction false} SortedUnique<V>(a: seq<(string, V)>, b: seq<(string, V)>)
    requires StrictlySorted(a) && StrictlySorted(b)
    requires multiset(a) == multiset(b)
    ensures a == b
  {
    if |a| == 0 {
      assert |b| == |multiset(b)| == 0;
    } else {
      assert |b| == |multiset(b)| == |multiset(a)| == |a|;
      assert a[0] in multiset(b);
      var k :| 0 <= k < |b| && b[k] == a[0];
      assert b[0] in multiset(a);
      var m :| 0 <= m < |a| && a[m] == b[0];
      if k > 0 && m > 0 {
        LessTransitive(a[0].0, a[m].0, b[k].0);
        LessIrreflexive(a[0].0);
      } else if k > 0 {
        LessIrreflexive(b[0].0);
      } else if m > 0 {
        LessIrreflexive(a[0].0);
      }
      assert a[0] == b[0];
      assert a == [a[0]] + a[1..] && b == [b[0]] + b[1..];
      assert multiset(a) == multiset{a[0]} + multiset(a[1..]);
      assert multiset(b) == multiset{b[0]} + multiset(b[1..]);
      forall x
        ensures multiset(a[1..])[x] == multiset(b[1..])[x]
      {
        assert multiset(a)[x] == multiset{a[0]}[x] + multiset(a[1..])[x];
        assert multiset(b)[x] == multiset{b[0]}[x] + multiset(b[1..])[x];
      }
      assert multiset(a[1..]) == multiset(b[1..]);
      SortedUnique(a[1..], b[1..]);
    }
  }

  /** `ksort` does not depend on the order the entries came in. */
  lemma KSortCanonical<V>(a: seq<(string, V)>, b: seq<(string, V)>)
    requires DistinctKeys(a) && DistinctKeys(b)
    requires multiset(a) == multiset(b)
    ensures KSort(a) == KSort(b)
  {
    KSortSorted(a);
    KSortSorted(b);
    KSortPermutes(a);
    KSortPermutes(b);
    SortedUnique(KSort(a), KSort(b));
  }
}
