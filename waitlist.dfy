/**
 * The bounded list of open historical request ids (`WaitList`): a Python
 * list whose `append` admits an element only while fewer than `max_len` are
 * held.
 */
module WaitLists {

  /** Python's `list.remove(x)`: drops the first occurrence of `x`, if any. */
  function RemoveFirst(s: seq<int>, x: int): (r: seq<int>)
    ensures multiset(r) == multiset(s) - multiset{x}
    ensures x !in s ==> r == s
    ensures x in s ==> |r| == |s| - 1
    ensures forall y :: y in r ==> y in s
  {
    if s == [] then []
    else if s[0] == x then
      assert s == [s[0]] + s[1..];
      s[1..]
    else
      assert s == [s[0]] + s[1..];
      [s[0]] + RemoveFirst(s[1..], x)
  }

  /** Position of the first copy of `x` in `s`. */
  function FirstIndexOf(s: seq<int>, x: int): (i: nat)
    requires x in s
    ensures i < |s| && s[i] == x && x !in s[..i]
  {
    if s[0] == x then 0
    else
      var j := FirstIndexOf(s[1..], x);
      assert s[..j + 1] == [s[0]] + s[1..][..j];
      j + 1
  }

  /** Removing `x` whose first copy sits at `i` closes the gap at `i`. */
  lemma {:induction false} RemoveFirstAt(s: seq<int>, x: int, i: nat)
    requires i < |s| && s[i] == x && x !in s[..i]
    ensures RemoveFirst(s, x) == s[..i] + s[i + 1..]
  {
    if i == 0 {
      assert s[..0] == [];
    } else {
      assert s[0] in s[..i];
      var t := s[1..];
      RemoveFirstTailAt(s, x, i);
      RemoveFirstAt(t, x, i - 1);
    }
  }

  /** The index step of `RemoveFirstAt`: the first copy of `x` in `s[1..]` sits one place earlier. */
  lemma RemoveFirstTailAt(s: seq<int>, x: int, i: nat)
    requires 0 < i < |s| && s[i] == x && x !in s[..i]
    ensures s[1..][i - 1] == x && x !in s[1..][..i - 1]
    ensures s[..i] + s[i + 1..] == [s[0]] + (s[1..][..i - 1] + s[1..][i..])
  {
    assert s[1..][..i - 1] == s[1..i];
    assert s[..i] == [s[0]] + s[1..i];
    assert s[1..][i..] == s[i + 1..];
  }

  /** `remove` drops the first copy of `x` and keeps the other items in their order. */
  lemma RemoveFirstDropsFirstCopy(s: seq<int>, x: int)
    requires x in s
    ensures exists i :: 0 <= i < |s| && s[i] == x && x !in s[..i] && RemoveFirst(s, x) == s[..i] + s[i + 1..]
  {
    var i := FirstIndexOf(s, x);
    RemoveFirstAt(s, x, i);
  }

  /** Every id occurs at most once. */
  ghost predicate Distinct(s: seq<int>)
  {
    forall y :: multiset(s)[y] <= 1
  }

  /** Removing from a list without repeats leaves no copy of the removed id. */
  lemma RemoveFirstFromDistinct(s: seq<int>, x: int)
    requires Distinct(s)
    ensures Distinct(RemoveFirst(s, x)) && x !in RemoveFirst(s, x)
  {
    var r := RemoveFirst(s, x);
    assert multiset(r)[x] == 0;
  }

  class WaitList {
    var items: seq<int>
    const maxLen: nat

    ghost predicate Valid()
      reads this
    {
      |items| <= maxLen
    }

    constructor (maxLen: nat)
      ensures Valid() && this.maxLen == maxLen && items == []
    {
      this.maxLen := maxLen;
      items := [];
    }

    /**
     * `append`: the source waits until the list is below `max_len`; here
     * the caller must already be under the bound.
     */
    method Append(x: int)
      requires Valid() && |items| < maxLen
      modifies this
      ensures Valid() && items == old(items) + [x]
    {
      items := items + [x];
    }

    /** `remove` under the source's `try/except`: `found` is false where Python would raise. */
    method Remove(x: int) returns (found: bool)
      requires Valid()
      modifies this
      ensures Valid() && found == (x in old(items)) && items == RemoveFirst(old(items), x)
    {
      found := x in items;
      items := RemoveFirst(items, x);
    }
  }
}
