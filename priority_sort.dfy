/**
 * The order RecipeLoader registers recipes in: List.sort with a comparator
 * that puts higher priorities first. List.sort is stable, so recipes of
 * equal priority keep the order they were loaded in.
 */
module PrioritySort {
  import opened ItemRecipes

  /** Higher priority first. */
  predicate Descending(s: seq<ItemRecipe>) {
    forall i, j :: 0 <= i < j < |s| ==> s[i].priority >= s[j].priority
  }

  /** The recipes of one priority, in the order they appear. */
  function WithPriority(s: seq<ItemRecipe>, p: int): (t: seq<ItemRecipe>)
    ensures |t| <= |s|
    decreases |s|
  {
    if s == [] then []
    else if s[0].priority == p then [s[0]] + WithPriority(s[1..], p)
    else WithPriority(s[1..], p)
  }

  /** Put r in front of the first recipe whose priority is not higher than its own. */
  function Insert(r: ItemRecipe, s: seq<ItemRecipe>): seq<ItemRecipe>
    decreases |s|
  {
    if s == [] || s[0].priority <= r.priority then [r] + s
    else [s[0]] + Insert(r, s[1..])
  }

  /** The sorted list: each recipe goes in front of the later recipes it does not rank below. */
  function SortByPriority(s: seq<ItemRecipe>): seq<ItemRecipe>
    decreases |s|
  {
    if s == [] then [] else Insert(s[0], SortByPriority(s[1..]))
  }

  lemma {:induction false} InsertPermutes(r: ItemRecipe, s: seq<ItemRecipe>)
    ensures multiset(Insert(r, s)) == multiset(s) + multiset{r}
    decreases |s|
  {
    if s != [] && s[0].priority > r.priority {
      InsertPermutes(r, s[1..]);
      assert s == [s[0]] + s[1..];
    }
  }

  lemma {:induction false} InsertDescending(r: ItemRecipe, s: seq<ItemRecipe>)
    requires Descending(s)
    ensures Descending(Insert(r, s))
    decreases |s|
  {
    if s != [] && s[0].priority > r.priority {
      InsertDescending(r, s[1..]);
      InsertPermutes(r, s[1..]);
      var t := Insert(r, s[1..]);
      forall k | 0 <= k < |t| ensures s[0].priority >= t[k].priority
      {
        assert t[k] in multiset(t);
        if t[k] in s[1..] {
          var m :| 0 <= m < |s[1..]| && s[1..][m] == t[k];
          assert s[m + 1] == t[k];
        }
      }
    }
  }

  /** In a list sorted higher-first, the recipes in front of r's place all rank above it. */
  lemma {:induction false} InsertStable(r: ItemRecipe, s: seq<ItemRecipe>, p: int)
    requires Descending(s)
    ensures WithPriority(Insert(r, s), p) == (if r.priority == p then [r] + WithPriority(s, p) else WithPriority(s, p))
    decreases |s|
  {
    if s != [] && s[0].priority > r.priority {
      InsertStable(r, s[1..], p);
      if r.priority == p {
        assert WithPriority(s, p) == WithPriority(s[1..], p);
      }
    }
  }

  /** The sorted list is a rearrangement of the loaded one. */
  lemma {:induction false} SortPermutes(s: seq<ItemRecipe>)
    ensures multiset(SortByPriority(s)) == multiset(s)
    decreases |s|
  {
    if s != [] {
      SortPermutes(s[1..]);
      InsertPermutes(s[0], SortByPriority(s[1..]));
      assert s == [s[0]] + s[1..];
    }
  }

  /** Higher priorities come first. */
  lemma {:induction false} SortDescending(s: seq<ItemRecipe>)
    ensures Descending(SortByPriority(s))
    decreases |s|
  {
    if s != [] {
      SortDescending(s[1..]);
      InsertDescending(s[0], SortByPriority(s[1..]));
    }
  }

  /** Recipes of equal priority keep their loading order. */
  lemma {:induction false} SortStable(s: seq<ItemRecipe>, p: int)
    ensures WithPriority(SortByPriority(s), p) == WithPriority(s, p)
    decreases |s|
  {
    if s != [] {
      SortStable(s[1..], p);
      SortDescending(s[1..]);
      InsertStable(s[0], SortByPriority(s[1..]), p);
    }
  }

  /** The sort neither adds nor drops recipes. */
  lemma SortKeepsLength(s: seq<ItemRecipe>)
    ensures |SortByPriority(s)| == |s|
  {
    SortPermutes(s);
    assert |multiset(SortByPriority(s))| == |multiset(s)|;
  }

  /** Recipes that all share one priority, as every configured one does, keep their order. */
  lemma {:induction false} SamePriorityUnchanged(s: seq<ItemRecipe>, p: int)
    requires forall k :: 0 <= k < |s| ==> s[k].priority == p
    ensures SortByPriority(s) == s
    decreases |s|
  {
    if s != [] {
      assert forall k :: 0 <= k < |s[1..]| ==> s[1..][k] == s[k + 1];
      SamePriorityUnchanged(s[1..], p);
      if s[1..] != [] {
        assert s[1..][0].priority == p;
      }
      assert s == [s[0]] + s[1..];
    }
  }
}
