/**
 * The array idioms the source uses on its shared collections:
 * `findIndex`/`find` by a key, `splice(i, 1)`, `filter` by key
 * inequality and indexed replacement.
 */
module SeqUtil {
  import opened Types

  /** `s.findIndex(x => key(x) === k)`: the first match, or -1. */
  function FirstIndex<T>(s: seq<T>, key: T -> string, k: string): (i: int)
    ensures -1 <= i < |s|
    ensures 0 <= i ==> key(s[i]) == k && forall j :: 0 <= j < i ==> key(s[j]) != k
    ensures i == -1 <==> forall j :: 0 <= j < |s| ==> key(s[j]) != k
    decreases |s|
  {
    if |s| == 0 then -1
    else if key(s[0]) == k then 0
    else
      var i := FirstIndex(s[1..], key, k);
      if i == -1 then -1 else i + 1
  }

  /** `s.find(x => key(x) === k)`. */
  function Find<T>(s: seq<T>, key: T -> string, k: string): (r: Option<T>)
    ensures r.None? <==> forall j :: 0 <= j < |s| ==> key(s[j]) != k
    ensures r.Some? ==> r.value == s[FirstIndex(s, key, k)] && key(r.value) == k
  {
    var i := FirstIndex(s, key, k);
    if i == -1 then None else Some(s[i])
  }

  /** `s.splice(i, 1)` on a valid index. */
  function RemoveAt<T>(s: seq<T>, i: nat): (r: seq<T>)
    requires i < |s|
    ensures |r| == |s| - 1
    ensures forall j :: 0 <= j < i ==> r[j] == s[j]
    ensures forall j :: i <= j < |r| ==> r[j] == s[j + 1]
    ensures multiset(r) + multiset{s[i]} == multiset(s)
  {
    assert s == s[..i] + [s[i]] + s[i+1..];
    s[..i] + s[i+1..]
  }

  /** `const i = s.findIndex(...); if (i > -1) s.splice(i, 1)`. */
  function RemoveFirst<T>(s: seq<T>, key: T -> string, k: string): (r: seq<T>)
    ensures FirstIndex(s, key, k) == -1 ==> r == s
    ensures FirstIndex(s, key, k) >= 0 ==> r == RemoveAt(s, FirstIndex(s, key, k))
  {
    var i := FirstIndex(s, key, k);
    if i == -1 then s else RemoveAt(s, i)
  }

  /** `s.filter(x => key(x) !== k)`. */
  function RemoveAll<T>(s: seq<T>, key: T -> string, k: string): (r: seq<T>)
    ensures |r| <= |s|
    ensures forall j :: 0 <= j < |r| ==> key(r[j]) != k
    ensures forall x :: x in s && key(x) != k ==> x in r
    ensures forall x :: x in r ==> x in s
    decreases |s|
  {
    if |s| == 0 then []
    else if key(s[0]) == k then RemoveAll(s[1..], key, k)
    else [s[0]] + RemoveAll(s[1..], key, k)
  }

  /** Filtering is the identity on a sequence with no match. */
  lemma {:induction false} RemoveAllNoMatch<T>(s: seq<T>, key: T -> string, k: string)
    requires forall j :: 0 <= j < |s| ==> key(s[j]) != k
    ensures RemoveAll(s, key, k) == s
    decreases |s|
  {
    if |s| > 0 {
      RemoveAllNoMatch(s[1..], key, k);
    }
  }

  /**
   * Filtering keeps the relative order of what it keeps: the survivors are
   * a subsequence of the input.
   */
  ghost predicate IsSubsequence<T>(r: seq<T>, s: seq<T>)
    decreases |s|
  {
    if |r| == 0 then true
    else if |s| == 0 then false
    else if r[0] == s[0] then IsSubsequence(r[1..], s[1..])
    else IsSubsequence(r, s[1..])
  }

  lemma {:induction false} RemoveAllKeepsOrder<T>(s: seq<T>, key: T -> string, k: string)
    ensures IsSubsequence(RemoveAll(s, key, k), s)
    decreases |s|
  {
    if |s| > 0 {
      RemoveAllKeepsOrder(s[1..], key, k);
      var r := RemoveAll(s, key, k);
      if key(s[0]) != k {
        assert r[0] == s[0] && r[1..] == RemoveAll(s[1..], key, k);
      } else if |r| > 0 {
        // the head of the survivors has another key, so it cannot be s[0]
        assert key(r[0]) != key(s[0]);
      }
    }
  }

  /** No two entries share a key. */
  ghost predicate UniqueKeys<T>(s: seq<T>, key: T -> string) {
    forall i, j :: 0 <= i < |s| && 0 <= j < |s| && key(s[i]) == key(s[j]) ==> i == j
  }

  /** The index of the first match moves by one when an element is put in front. */
  lemma FirstIndexCons<T>(x: T, s: seq<T>, key: T -> string, k: string)
    ensures key(x) != k ==> FirstIndex([x] + s, key, k) == (if FirstIndex(s, key, k) == -1 then -1 else FirstIndex(s, key, k) + 1)
    ensures key(x) == k ==> FirstIndex([x] + s, key, k) == 0
  {
    assert ([x] + s)[1..] == s;
  }

  /** When at most one entry has the key, removing the first match removes every match. */
  lemma {:induction false} RemoveFirstIsRemoveAll<T>(s: seq<T>, key: T -> string, k: string)
    requires UniqueKeys(s, key)
    ensures RemoveFirst(s, key, k) == RemoveAll(s, key, k)
    decreases |s|
  {
    if |s| > 0 {
      var t := s[1..];
      assert s == [s[0]] + t;
      assert UniqueKeys(t, key) by {
        forall i, j | 0 <= i < |t| && 0 <= j < |t| && key(t[i]) == key(t[j]) ensures i == j {
          assert key(s[i + 1]) == key(s[j + 1]);
        }
      }
      FirstIndexCons(s[0], t, key, k);
      if key(s[0]) == k {
        forall j | 0 <= j < |t| ensures key(t[j]) != k {
          assert key(s[j + 1]) != key(s[0]);
        }
        RemoveAllNoMatch(t, key, k);
      } else {
        RemoveFirstIsRemoveAll(t, key, k);
        var i := FirstIndex(t, key, k);
        if i >= 0 {
          assert RemoveAt(s, i + 1) == [s[0]] + RemoveAt(t, i);
        }
      }
    }
  }

  /** Under unique keys, removing the first match leaves no match behind. */
  lemma RemoveFirstLeavesNone<T>(s: seq<T>, key: T -> string, k: string)
    requires UniqueKeys(s, key)
    ensures forall j :: 0 <= j < |RemoveFirst(s, key, k)| ==> key(RemoveFirst(s, key, k)[j]) != k
  {
    RemoveFirstIsRemoveAll(s, key, k);
  }

  /** Lookups by key only depend on the keys. */
  lemma {:induction false} FirstIndexSameKeys<T>(s: seq<T>, t: seq<T>, key: T -> string, k: string)
    requires |s| == |t|
    requires forall j :: 0 <= j < |s| ==> key(s[j]) == key(t[j])
    ensures FirstIndex(s, key, k) == FirstIndex(t, key, k)
    decreases |s|
  {
    if |s| > 0 {
      FirstIndexSameKeys(s[1..], t[1..], key, k);
    }
  }
}
