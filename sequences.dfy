/** Facts about sequence slices used by the loops of the model. */
module Sequences {
  /** Taking one more element appends it. */
  lemma TakeOneMore<T>(s: seq<T>, i: nat)
    requires i < |s|
    ensures s[..i + 1] == s[..i] + [s[i]]
  {
  }

  /** The prefix as long as the sequence is the sequence. */
  lemma TakeAll<T>(s: seq<T>)
    ensures s[..|s|] == s
  {
  }

  /** List.remove(Object): the first equal element goes, and the others keep their order. */
  function RemoveFirst<T(==)>(s: seq<T>, x: T): (t: seq<T>)
    ensures x !in s ==> t == s
    ensures x in s ==> |t| == |s| - 1 && multiset(t) == multiset(s) - multiset{x}
    decreases |s|
  {
    if s == [] then []
    else if s[0] == x then
      assert s == [s[0]] + s[1..];
      s[1..]
    else
      assert s == [s[0]] + s[1..];
      [s[0]] + RemoveFirst(s[1..], x)
  }

  /** The index of the first element equal to x (List.indexOf). */
  function FirstIndex<T(==)>(s: seq<T>, x: T): (i: nat)
    requires x in s
    ensures i < |s| && s[i] == x && x !in s[..i]
    decreases |s|
  {
    if s[0] == x then 0
    else
      assert s[1..][..FirstIndex(s[1..], x)] == s[1..FirstIndex(s[1..], x) + 1];
      FirstIndex(s[1..], x) + 1
  }

  /** Cutting out element i + 1 is keeping the head and cutting element i out of the tail. */
  lemma CutAfterHead<T>(s: seq<T>, i: nat)
    requires i + 1 < |s|
    ensures s[..i + 1] + s[i + 2..] == [s[0]] + (s[1..][..i] + s[1..][i + 1..])
  {
    assert s[..i + 1] == [s[0]] + s[1..][..i];
    assert s[i + 2..] == s[1..][i + 1..];
  }

  /** The element removed is the first equal one: the sequence is cut around it. */
  lemma {:induction false} RemoveFirstCuts<T>(s: seq<T>, x: T)
    requires x in s
    ensures RemoveFirst(s, x) == s[..FirstIndex(s, x)] + s[FirstIndex(s, x) + 1..]
    decreases |s|
  {
    if s[0] == x {
      assert s[..0] == [];
    } else {
      RemoveFirstCuts(s[1..], x);
      var i := FirstIndex(s[1..], x);
      assert FirstIndex(s, x) == i + 1;
      assert RemoveFirst(s, x) == [s[0]] + RemoveFirst(s[1..], x);
      CutAfterHead(s, i);
    }
  }

  /** Removing an element just appended, and not present before, gives the sequence back. */
  lemma {:induction false} RemoveUndoesAppend<T>(s: seq<T>, x: T)
    requires x !in s
    ensures RemoveFirst(s + [x], x) == s
    decreases |s|
  {
    if s != [] {
      assert (s + [x])[1..] == s[1..] + [x];
      RemoveUndoesAppend(s[1..], x);
      assert [s[0]] + s[1..] == s;
    }
  }
}
