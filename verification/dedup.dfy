/**
 Row de-duplication as pandas' `drop_duplicates()` does it: a row equal to an
 earlier one is dropped, and the surviving rows keep their order.
 */
module Duplicates {

  /** No row occurs twice. */
  predicate Distinct<T(==)>(s: seq<T>)
  {
    forall i, j :: 0 <= i < j < |s| ==> s[i] != s[j]
  }

  /** Keep the first occurrence of every row. */
  function DropDuplicates<T(==)>(s: seq<T>): (d: seq<T>)
    ensures Distinct(d)
    ensures |d| <= |s|
  {
    if |s| == 0 then []
    else
      var d := DropDuplicates(s[..|s| - 1]);
      if s[|s| - 1] in d then d else d + [s[|s| - 1]]
  }

  /** A row survives de-duplication exactly when it occurs in the input. */
  lemma {:induction false} DropDuplicatesKeepsEveryRow<T>(s: seq<T>, x: T)
    ensures x in DropDuplicates(s) <==> x in s
  {
    if |s| > 0 {
      var init := s[..|s| - 1];
      DropDuplicatesKeepsEveryRow(init, x);
      assert s == init + [s[|s| - 1]];
    }
  }

  /** Rows that are already distinct are left as they are. */
  lemma {:induction false} DropDuplicatesOfDistinct<T>(s: seq<T>)
    requires Distinct(s)
    ensures DropDuplicates(s) == s
  {
    if |s| > 0 {
      var init := s[..|s| - 1];
      assert Distinct(init);
      DropDuplicatesOfDistinct(init);
      assert s[|s| - 1] !in init;
    }
  }

  /** De-duplicating twice is de-duplicating once. */
  lemma DropDuplicatesIdempotent<T>(s: seq<T>)
    ensures DropDuplicates(DropDuplicates(s)) == DropDuplicates(s)
  {
    DropDuplicatesOfDistinct(DropDuplicates(s));
  }

  /** Position k holds the first occurrence of x in s. */
  predicate FirstAt<T(==)>(s: seq<T>, x: T, k: int)
  {
    0 <= k < |s| && s[k] == x && x !in s[..k]
  }

  /** A first occurrence inside a prefix is a first occurrence in that prefix. */
  lemma FirstAtInPrefix<T>(s: seq<T>, n: nat, x: T, k: int)
    requires n <= |s|
    requires FirstAt(s, x, k)
    requires x in s[..n]
    ensures k < n && FirstAt(s[..n], x, k)
  {
    assert s[..n][..k] == s[..k];
  }

  /**
   The surviving rows appear in the order of their first occurrences: together
   with Distinct and the equality of contents, this pins the result down.
   */
  lemma {:induction false} DropDuplicatesKeepsFirstOccurrenceOrder<T>(s: seq<T>, i: nat, j: nat, p: int, q: int)
    requires i < j < |DropDuplicates(s)|
    requires FirstAt(s, DropDuplicates(s)[i], p) && FirstAt(s, DropDuplicates(s)[j], q)
    ensures p < q
  {
    var n := |s|;
    var init := s[..n - 1];
    var last := s[n - 1];
    var d, d' := DropDuplicates(s), DropDuplicates(init);
    if j < |d'| {
      assert d[i] == d'[i] && d[j] == d'[j];
      DropDuplicatesKeepsEveryRow(init, d[i]);
      DropDuplicatesKeepsEveryRow(init, d[j]);
      FirstAtInPrefix(s, n - 1, d[i], p);
      FirstAtInPrefix(s, n - 1, d[j], q);
      DropDuplicatesKeepsFirstOccurrenceOrder(init, i, j, p, q);
    } else {
      assert last !in d' && d[j] == last;
      DropDuplicatesKeepsEveryRow(init, last);
      assert q == n - 1;
      DropDuplicatesKeepsEveryRow(init, d[i]);
      assert d[i] == d'[i] && d[i] in init;
      FirstAtInPrefix(s, n - 1, d[i], p);
    }
  }
}
