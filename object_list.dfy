/** The ordered, duplicate-free container that channel and contact lists are
    built on: where `add(obj, row)` puts a new element and what the list is
    afterwards. */
module ObjectList {

  /** No object occurs twice in the list. */
  predicate Distinct<T(==)>(s: seq<T>)
  {
    forall i, j :: 0 <= i < j < |s| ==> s[i] != s[j]
  }

  /** The position at which `add(obj, row)` inserts into a list of length
      `n`: `row` itself when it is a position of the list or its end, and the
      end for the default `row = -1` (or any other row outside the list). */
  function InsertionIndex(n: nat, row: int): (i: nat)
    ensures i <= n
    ensures row == -1 ==> i == n
    ensures 0 <= row <= n ==> i == row
  {
    if 0 <= row <= n then row else n
  }

  /** The list `s` with `x` inserted before position `i`. */
  function Inserted<T>(s: seq<T>, x: T, i: nat): seq<T>
    requires i <= |s|
  {
    s[..i] + [x] + s[i..]
  }

  /** Insertion puts `x` at index `i`, keeps every earlier element at its
      index and shifts every later element up by one. */
  lemma InsertedAt<T>(s: seq<T>, x: T, i: nat)
    requires i <= |s|
    ensures |Inserted(s, x, i)| == |s| + 1
    ensures Inserted(s, x, i)[i] == x
    ensures forall k :: 0 <= k < i ==> Inserted(s, x, i)[k] == s[k]
    ensures forall k :: i <= k < |s| ==> Inserted(s, x, i)[k + 1] == s[k]
  {
  }

  /** Inserting an object that is not yet in a duplicate-free list keeps the
      list duplicate-free. */
  lemma InsertedDistinct<T>(s: seq<T>, x: T, i: nat)
    requires i <= |s| && Distinct(s) && x !in s
    ensures Distinct(Inserted(s, x, i))
  {
  }
}
