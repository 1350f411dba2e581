/** Removing repetitions from a list. */
module Lists {
  import opened Wrappers

  /** Drop every element that occurred earlier. */
  function Deduplicated<T(==)>(s: seq<T>): seq<T> {
    if s == [] then []
    else
      var init, last := Deduplicated(s[..|s| - 1]), s[|s| - 1];
      if last in init then init else init + [last]
  }

  lemma DeduplicatedAppend<T>(s: seq<T>, x: T)
    ensures Deduplicated(s + [x]) == if x in Deduplicated(s) then Deduplicated(s) else Deduplicated(s) + [x]
  {
    assert (s + [x])[..|s|] == s;
  }

  /** Position of the first occurrence of `x` in `s`. */
  ghost function FirstIndex<T>(s: seq<T>, x: T): (i: nat)
    requires x in s
    ensures i < |s| && s[i] == x && forall k :: 0 <= k < i ==> s[k] != x
  {
    if s[0] == x then 0 else 1 + FirstIndex(s[1..], x)
  }

  /** `d` lists the elements of `s`, each once, in the order of their first occurrences. */
  ghost predicate ListsFirstOccurrences<T(!new)>(d: seq<T>, s: seq<T>) {
    && NoRepeats(d)
    && (forall x :: x in d <==> x in s)
    && forall i, j :: 0 <= i < j < |d| ==> FirstIndex(s, d[i]) < FirstIndex(s, d[j])
  }

  lemma FirstIndexExtends<T>(s: seq<T>, last: T, x: T)
    requires x in s + [last]
    ensures FirstIndex(s + [last], x) == if x in s then FirstIndex(s, x) else |s|
  {
    var t, i := s + [last], FirstIndex(s + [last], x);
    assert t[i] == x && forall k :: 0 <= k < |s| ==> t[k] == s[k];
    if x in s {
      assert t[FirstIndex(s, x)] == x;
    }
  }

  lemma {:induction false} DeduplicatedListsFirstOccurrences<T(!new)>(s: seq<T>)
    ensures ListsFirstOccurrences(Deduplicated(s), s)
  {
    if s != [] {
      var init, last := s[..|s| - 1], s[|s| - 1];
      DeduplicatedListsFirstOccurrences(init);
      assert s == init + [last];
      forall x | x in s ensures FirstIndex(s, x) == if x in init then FirstIndex(init, x) else |init| {
        FirstIndexExtends(init, last, x);
      }
    }
  }

  lemma EntriesAreOrdered<T(!new)>(d: seq<T>, s: seq<T>, k: nat, j: nat)
    requires ListsFirstOccurrences(d, s) && k <= j < |d|
    ensures d[k] in s && d[j] in s && FirstIndex(s, d[k]) <= FirstIndex(s, d[j])
  {
    assert d[k] in d && d[j] in d;
  }

  /** Two such lists that agree on the first `k` entries: the second has a next entry if the first
      has one, and it is not a later one. */
  lemma NextEntry<T(!new)>(d: seq<T>, d': seq<T>, s: seq<T>, k: nat)
    requires ListsFirstOccurrences(d, s) && ListsFirstOccurrences(d', s)
    requires k < |d| && k <= |d'| && forall i :: 0 <= i < k ==> d[i] == d'[i]
    ensures k < |d'| && d[k] in s && d'[k] in s
    ensures FirstIndex(s, d'[k]) <= FirstIndex(s, d[k])
  {
    var j := PositionIn(d, d', s, k);
    assert j >= k by {
      assert forall i :: 0 <= i < k ==> d[i] != d[k];
    }
    EntriesAreOrdered(d', s, k, j);
  }

  lemma PositionIn<T(!new)>(d: seq<T>, d': seq<T>, s: seq<T>, k: nat) returns (j: nat)
    requires ListsFirstOccurrences(d, s) && ListsFirstOccurrences(d', s) && k < |d|
    ensures j < |d'| && d'[j] == d[k]
  {
    assert d[k] in d;
    assert d[k] in s;
    assert d[k] in d';
    j :| 0 <= j < |d'| && d'[j] == d[k];
  }

  lemma SameFirstIndex<T>(s: seq<T>, x: T, y: T)
    requires x in s && y in s && FirstIndex(s, x) == FirstIndex(s, y)
    ensures x == y
  {
    assert s[FirstIndex(s, x)] == x;
  }

  lemma {:induction false} FirstOccurrencesAgree<T(!new)>(d: seq<T>, d': seq<T>, s: seq<T>, k: nat)
    requires ListsFirstOccurrences(d, s) && ListsFirstOccurrences(d', s)
    requires k <= |d|
    ensures k <= |d'| && forall i :: 0 <= i < k ==> d[i] == d'[i]
  {
    if k > 0 {
      FirstOccurrencesAgree(d, d', s, k - 1);
      NextEntry(d, d', s, k - 1);
      NextEntry(d', d, s, k - 1);
      SameFirstIndex(s, d[k - 1], d'[k - 1]);
    }
  }

  /** That property pins the list down. */
  lemma FirstOccurrencesUnique<T(!new)>(d: seq<T>, d': seq<T>, s: seq<T>)
    requires ListsFirstOccurrences(d, s) && ListsFirstOccurrences(d', s)
    ensures d == d'
  {
    FirstOccurrencesAgree(d, d', s, |d|);
    FirstOccurrencesAgree(d', d, s, |d'|);
  }

  /** The elements of a set, each once, in some order. */
  lemma Listing<T>(elements: set<T>) returns (s: seq<T>)
    ensures NoRepeats(s) && forall x :: x in s <==> x in elements
  {
    if elements == {} {
      s := [];
    } else {
      var x :| x in elements;
      s := Listing(elements - {x});
      s := s + [x];
    }
  }

  lemma Regroup<T>(a: seq<T>, b: seq<T>, c: seq<T>)
    ensures a + (b + c) == (a + b) + c
  {
  }
}
