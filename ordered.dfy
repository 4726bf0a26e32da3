/**
 * First-seen ordering over sequences. Python dictionaries iterate in
 * insertion order and Odoo recordset unions (`mapped`) keep the first
 * occurrence of each record; both are modelled by `Dedup`.
 */
module Ordered {

  /** No element occurs twice. */
  predicate NoDup<T(==)>(s: seq<T>) {
    forall i, j :: 0 <= i < j < |s| ==> s[i] != s[j]
  }

  /** The elements of `s`, each kept at its first occurrence only. */
  function Dedup<T(==)>(s: seq<T>): seq<T> {
    if s == [] then []
    else
      var d := Dedup(s[..|s| - 1]);
      if s[|s| - 1] in d then d else d + [s[|s| - 1]]
  }

  /** The position of the first occurrence of `x` in `s`. */
  function FirstIndex<T(==)>(s: seq<T>, x: T): (i: nat)
    requires x in s
    ensures i < |s| && s[i] == x
    ensures forall j :: 0 <= j < i ==> s[j] != x
  {
    if s[0] == x then 0 else 1 + FirstIndex(s[1..], x)
  }

  /** The elements of `s` that belong to `keep`, in their order in `s`. */
  function Keep<T(==)>(s: seq<T>, keep: set<T>): seq<T> {
    if s == [] then []
    else
      var k := Keep(s[..|s| - 1], keep);
      if s[|s| - 1] in keep then k + [s[|s| - 1]] else k
  }

  /** Appending an element does not move the first occurrence of an element already present. */
  lemma FirstIndexSnoc<T>(s: seq<T>, x: T, y: T)
    requires y in s
    ensures FirstIndex(s + [x], y) == FirstIndex(s, y)
  {
    var i, j := FirstIndex(s + [x], y), FirstIndex(s, y);
    assert (s + [x])[j] == y;
  }

  /**
   * `Dedup` keeps exactly the elements of `s`, each once, ordered by
   * where they first occur in `s`.
   */
  lemma {:induction false} DedupFirstSeen<T>(s: seq<T>)
    ensures NoDup(Dedup(s))
    ensures forall x :: x in Dedup(s) <==> x in s
    ensures forall i, j :: 0 <= i < j < |Dedup(s)| ==>
              FirstIndex(s, Dedup(s)[i]) < FirstIndex(s, Dedup(s)[j])
  {
    if s != [] {
      var p, x := s[..|s| - 1], s[|s| - 1];
      assert s == p + [x];
      DedupFirstSeen(p);
      var d := Dedup(p);
      forall y | y in p ensures FirstIndex(s, y) == FirstIndex(p, y) {
        FirstIndexSnoc(p, x, y);
      }
      if x !in d {
        assert FirstIndex(s, x) == |p|;
        forall i | 0 <= i < |d| ensures FirstIndex(s, d[i]) < |p| {
          assert d[i] in d;
        }
      }
    }
  }

  /** `Keep` of a duplicate-free sequence is duplicate-free and holds the common elements. */
  lemma {:induction false} KeepElements<T>(s: seq<T>, keep: set<T>)
    requires NoDup(s)
    ensures NoDup(Keep(s, keep))
    ensures forall x :: x in Keep(s, keep) <==> x in s && x in keep
  {
    if s != [] {
      var p := s[..|s| - 1];
      KeepElements(p, keep);
    }
  }

  /** A duplicate-free sequence that covers `keep` keeps exactly `|keep|` elements. */
  lemma {:induction false} KeepLength<T>(s: seq<T>, keep: set<T>)
    requires NoDup(s)
    requires forall x :: x in keep ==> x in s
    ensures |Keep(s, keep)| == |keep|
  {
    if s == [] {
      assert keep == {};
    } else {
      var p, x := s[..|s| - 1], s[|s| - 1];
      assert s == p + [x];
      if x in keep {
        forall y | y in keep - {x} ensures y in p {
          assert y in s;
        }
        KeepLength(p, keep - {x});
        KeepOnlyIn(p, keep, x);
      } else {
        KeepLength(p, keep);
      }
    }
  }

  /** Removing from `keep` an element that `s` does not hold changes nothing. */
  lemma {:induction false} KeepOnlyIn<T>(s: seq<T>, keep: set<T>, x: T)
    requires x !in s
    ensures Keep(s, keep - {x}) == Keep(s, keep)
  {
    if s != [] {
      KeepOnlyIn(s[..|s| - 1], keep, x);
    }
  }

  /** Dropping the last element of a duplicate-free sequence leaves it duplicate-free and without that element. */
  lemma NoDupInit<T>(s: seq<T>)
    requires NoDup(s) && s != []
    ensures NoDup(s[..|s| - 1]) && s[|s| - 1] !in s[..|s| - 1]
  {
  }

  /** Two duplicate-free sequences with no common element concatenate without duplicates. */
  lemma NoDupAppend<T>(a: seq<T>, b: seq<T>)
    requires NoDup(a) && NoDup(b)
    requires forall x :: x in a ==> x !in b
    ensures NoDup(a + b)
  {
    forall i, j | 0 <= i < j < |a + b| ensures (a + b)[i] != (a + b)[j] {
      if i < |a| && |a| <= j {
        assert (a + b)[i] in a && (a + b)[j] in b;
      }
    }
  }

  /** A duplicate-free sequence has as many elements as the set of its elements. */
  lemma {:induction false} NoDupLength<T>(s: seq<T>)
    requires NoDup(s)
    ensures |set x | x in s| == |s|
  {
    if s != [] {
      var p, x := s[..|s| - 1], s[|s| - 1];
      NoDupLength(p);
      assert (set y | y in s) == (set y | y in p) + {x};
      assert x !in p;
    }
  }

  /** Keeping every element keeps the sequence. */
  lemma {:induction false} KeepAll<T>(s: seq<T>, keep: set<T>)
    requires forall x :: x in s ==> x in keep
    ensures Keep(s, keep) == s
  {
    if s != [] {
      assert s == s[..|s| - 1] + [s[|s| - 1]];
      KeepAll(s[..|s| - 1], keep);
    }
  }
}
