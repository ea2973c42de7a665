/**
 * PrepareCraftListener: the checks that veto what the server's own matcher
 * let through. The server matches recipes by their native choices; these
 * checks then test each grid item against the recipe's ingredients with
 * `isSimilar`, and clear the result (or cancel the smelt) when one fails.
 * The events are reduced to what the checks read and what they change.
 */
module Listener {
  import opened Wrappers
  import opened Items
  import opened Ingredients
  import opened RecipeTypes
  import opened ItemRecipes

  /** The server-side class of the recipe an event carries. */
  datatype ServerKind = ShapedKind | ShapelessKind | FurnaceKind | SmithingTransformKind | SmithingTrimKind | OtherKind

  datatype ServerRecipe = ServerRecipe(kind: ServerKind, key: NamespacedKey)

  /** What one check decides: accept, reject (clear the result), or throw. */
  datatype Verdict = Accept | Reject | Fail(error: Error)

  /**
   * What a handler does to its event: whether it cleared the result (or
   * cancelled the event), and whether it then returned or threw. A handler
   * that throws keeps what it already changed.
   */
  datatype Effect = Effect(changed: bool, outcome: Outcome)

  const Unchanged := Effect(false, Done)

  /** An earlier change stays when the rest of the loop runs. */
  function Merge(changed: bool, rest: Effect): Effect {
    Effect(changed || rest.changed, rest.outcome)
  }

  /**
   * A loop that looks at every registered recipe in list order: a failing
   * check throws out of the handler, a rejecting one clears the result (or
   * cancels) and the loop goes on, so a later check never undoes it.
   */
  function Sweep(verdicts: seq<Verdict>, i: nat): Effect
    requires i <= |verdicts|
    decreases |verdicts| - i
  {
    if i == |verdicts| then Unchanged
    else match verdicts[i]
      case Fail(e) => Effect(false, Threw(e))
      case Reject => Merge(true, Sweep(verdicts, i + 1))
      case Accept => Sweep(verdicts, i + 1)
  }

  /**
   * Such a loop throws exactly when some check fails; when none does, it
   * changes the event exactly when some check rejects.
   */
  lemma {:induction false} SweepChangesIff(verdicts: seq<Verdict>, i: nat)
    requires i <= |verdicts|
    ensures Sweep(verdicts, i).outcome.Done? <==> forall k :: i <= k < |verdicts| ==> !verdicts[k].Fail?
    ensures (forall k :: i <= k < |verdicts| ==> !verdicts[k].Fail?) ==>
              (Sweep(verdicts, i).changed <==> exists k :: i <= k < |verdicts| && verdicts[k] == Reject)
    decreases |verdicts| - i
  {
    if i < |verdicts| {
      SweepChangesIff(verdicts, i + 1);
      if verdicts[i] == Accept {
        if exists k :: i <= k < |verdicts| && verdicts[k] == Reject {
          var k :| i <= k < |verdicts| && verdicts[k] == Reject;
          assert k != i;
        }
      }
    }
  }

  /** Once the loop has changed the event, finishing the loop keeps the change, even when a later check throws. */
  lemma {:induction false} SweepKeepsRejection(verdicts: seq<Verdict>, i: nat, k: nat)
    requires i <= k < |verdicts| && verdicts[k] == Reject
    requires forall j :: i <= j < k ==> !verdicts[j].Fail?
    ensures Sweep(verdicts, i).changed
    decreases k - i
  {
    if i < k {
      SweepKeepsRejection(verdicts, i + 1, k);
    }
  }

  // ----------------------------------------------------------- ingredient tests

  /** The name under which the ItemsAdder provider registers. */
  const ItemsAdderName := "itemsadder"

  /**
   * ingredient.isSimilar(stack) on a slot that may be null. The built-in
   * ingredients and Oraxen's dereference the slot and throw; an ItemsAdder
   * ingredient hands it to ItemStack.isSimilar, which answers false for null.
   */
  function SimilarSlot(ing: Ingredient, slot: Option<Item>, provider: ProviderMatch): (r: Result<bool>)
    ensures slot.Some? ==> r == Ok(Matches(ing, slot.value, provider))
    ensures slot.None? && ing.HookIngredient? && ing.provider == ItemsAdderName ==> r == Ok(false)
    ensures slot.None? && !(ing.HookIngredient? && ing.provider == ItemsAdderName) ==> r.Err? && r.error.Crash?
  {
    if slot.Some? then Ok(Matches(ing, slot.value, provider))
    else if ing.HookIngredient? && ing.provider == ItemsAdderName then Ok(false)
    else Err(Crash("NullPointerException: item is null"))
  }

  // ------------------------------------------------------------- shaped check

  /**
   * The character of the pattern row at a column, as written: spaces become
   * '\U{1}', the row is split into one-character strings, and the first
   * character of the chosen piece is taken. An empty row splits into one
   * empty piece, so it has no character at any column.
   */
  function SignAt(row: string, column: nat): (r: Result<char>)
    ensures r.Ok? <==> column < |row|
    ensures r.Ok? && row[column] != ' ' ==> r.value == row[column]
    ensures r.Ok? && row[column] == ' ' ==> r.value == '\U{1}'
  {
    if row == [] then Err(Crash("ArrayIndexOutOfBoundsException: index 0, length 0"))
    else if column >= |row| then Err(Crash("ArrayIndexOutOfBoundsException: column outside the row"))
    else if row[column] == ' ' then Ok('\U{1}')
    else Ok(row[column])
  }

  /** Every ingredient before index k has a sign, and none of those signs is `c`. */
  predicate SignsDifferBefore(ings: seq<Ingredient>, c: char, k: nat)
    requires k <= |ings|
  {
    forall j :: 0 <= j < k ==> ings[j].sign.Some? && ings[j].sign.value != c
  }

  /**
   * The first ingredient whose sign equals `c`. The comparison unboxes each
   * sign, so an ingredient without one, met before a match, throws.
   */
  function DecidingIngredient(ings: seq<Ingredient>, c: char): (r: Result<Option<Ingredient>>)
    ensures r.Ok? && r.value.Some? ==>
              exists k :: 0 <= k < |ings| && SignsDifferBefore(ings, c, k) && ings[k] == r.value.value &&
                          ings[k].sign == Some(c)
    ensures forall k :: 0 <= k < |ings| && SignsDifferBefore(ings, c, k) && ings[k].sign == Some(c) ==>
              r == Ok(Some(ings[k]))
    ensures forall k :: 0 <= k < |ings| && SignsDifferBefore(ings, c, k) && ings[k].sign.None? ==>
              r.Err? && r.error.Crash?
    ensures SignsDifferBefore(ings, c, |ings|) <==> r == Ok(None)
    decreases |ings|
  {
    if ings == [] then Ok(None)
    else if ings[0].sign.None? then Err(Crash("NullPointerException: ingredient sign is null"))
    else if ings[0].sign.value == c then Ok(Some(ings[0]))
    else
      var rest :- DecidingIngredient(ings[1..], c);
      ShiftSignsDiffer(ings, c);
      if rest.Some? then FoundShifts(ings, c, rest.value); Ok(rest) else Ok(rest)
  }

  /** When the first ingredient has a sign other than `c`, the run of differing signs shifts by one. */
  lemma ShiftSignsDiffer(ings: seq<Ingredient>, c: char)
    requires |ings| > 0 && ings[0].sign.Some? && ings[0].sign.value != c
    ensures forall k :: 0 <= k <= |ings| - 1 ==> (SignsDifferBefore(ings, c, k + 1) <==> SignsDifferBefore(ings[1..], c, k))
  {
    forall k | 0 <= k <= |ings| - 1
      ensures SignsDifferBefore(ings, c, k + 1) <==> SignsDifferBefore(ings[1..], c, k)
    {
      if SignsDifferBefore(ings[1..], c, k) {
        forall j | 0 <= j < k + 1
          ensures ings[j].sign.Some? && ings[j].sign.value != c
        {
          if j > 0 {
            assert ings[j] == ings[1..][j - 1];
          }
        }
      }
    }
  }

  /** An ingredient found first in the tail is found first in the whole list. */
  lemma FoundShifts(ings: seq<Ingredient>, c: char, x: Ingredient)
    requires |ings| > 0 && ings[0].sign.Some? && ings[0].sign.value != c
    requires exists k :: 0 <= k < |ings[1..]| && SignsDifferBefore(ings[1..], c, k) && ings[1..][k] == x && x.sign == Some(c)
    ensures exists k :: 0 <= k < |ings| && SignsDifferBefore(ings, c, k) && ings[k] == x && x.sign == Some(c)
  {
    var k :| 0 <= k < |ings[1..]| && SignsDifferBefore(ings[1..], c, k) && ings[1..][k] == x && x.sign == Some(c);
    ShiftSignsDiffer(ings, c);
    assert SignsDifferBefore(ings, c, k + 1) && ings[k + 1] == x;
  }

  /**
   * Grid cell i: skipped when empty, else checked against pattern row i/3,
   * column i%3. The first ingredient carrying that character decides the
   * cell; when none carries it, the cell passes.
   */
  function CellOk(recipe: ItemRecipe, i: nat, slot: Option<Item>, provider: ProviderMatch): (r: Result<bool>)
    ensures IsEmptySlot(slot) ==> r == Ok(true)
    ensures !IsEmptySlot(slot) && recipe.pattern.None? ==> r.Err? && r.error.Crash?
    ensures !IsEmptySlot(slot) && recipe.pattern.Some? && i / 3 >= |recipe.pattern.value| ==> r.Err? && r.error.Crash?
    ensures !IsEmptySlot(slot) && recipe.pattern.Some? && i / 3 < |recipe.pattern.value| ==>
              var c := SignAt(recipe.pattern.value[i / 3], i % 3);
              && (c.Err? ==> r.Err?)
              && (c.Ok? && SignsDifferBefore(recipe.ingredients, c.value, |recipe.ingredients|) ==> r == Ok(true))
              && (forall k | 0 <= k < |recipe.ingredients| && c.Ok? && SignsDifferBefore(recipe.ingredients, c.value, k) ::
                    (recipe.ingredients[k].sign == Some(c.value) ==>
                       r == Ok(Matches(recipe.ingredients[k], slot.value, provider))) &&
                    (recipe.ingredients[k].sign.None? ==> r.Err?))
  {
    if IsEmptySlot(slot) then Ok(true)
    else if recipe.pattern.None? then Err(Crash("NullPointerException: pattern is null"))
    else if i / 3 >= |recipe.pattern.value| then Err(Crash("ArrayIndexOutOfBoundsException: row outside the pattern"))
    else
      var sign :- SignAt(recipe.pattern.value[i / 3], i % 3);
      var deciding :- DecidingIngredient(recipe.ingredients, sign);
      Ok(deciding.None? || Matches(deciding.value, slot.value, provider))
  }

  /** checkGoodShapedRecipe from cell i on: the first failing cell rejects, and checking stops there. */
  function ShapedFrom(recipe: ItemRecipe, matrix: seq<Option<Item>>, i: nat, provider: ProviderMatch): Verdict
    requires i <= |matrix|
    decreases |matrix| - i
  {
    if i == |matrix| then Accept
    else match CellOk(recipe, i, matrix[i], provider)
      case Err(e) => Fail(e)
      case Ok(false) => Reject
      case Ok(true) => ShapedFrom(recipe, matrix, i + 1, provider)
  }

  /** The cells before n all pass. */
  predicate CellsPass(recipe: ItemRecipe, matrix: seq<Option<Item>>, n: nat, provider: ProviderMatch)
    requires n <= |matrix|
  {
    forall j :: 0 <= j < n ==> CellOk(recipe, j, matrix[j], provider) == Ok(true)
  }

  /** The shaped check, cell by cell. */
  method CheckGoodShapedRecipe(recipe: ItemRecipe, matrix: seq<Option<Item>>, provider: ProviderMatch) returns (v: Verdict)
    ensures v == ShapedFrom(recipe, matrix, 0, provider)
  {
    var i := 0;
    while i < |matrix|
      invariant 0 <= i <= |matrix|
      invariant ShapedFrom(recipe, matrix, 0, provider) == ShapedFrom(recipe, matrix, i, provider)
    {
      var stack := matrix[i];
      if IsEmptySlot(stack) {
        i := i + 1;
        continue;
      }
      var row := i / 3;
      var column := i % 3;
      if recipe.pattern.None? {
        return Fail(Crash("NullPointerException: pattern is null"));
      }
      var pattern := recipe.pattern.value;
      if row >= |pattern| {
        return Fail(Crash("ArrayIndexOutOfBoundsException: row outside the pattern"));
      }
      var sign := SignAt(pattern[row], column);
      if sign.Err? {
        return Fail(sign.error);
      }
      var deciding := DecidingIngredient(recipe.ingredients, sign.value);
      if deciding.Err? {
        return Fail(deciding.error);
      }
      var isSimilar := true;
      if deciding.value.Some? {
        isSimilar := Matches(deciding.value.value, stack.value, provider);
      }
      if !isSimilar {
        return Reject;
      }
      i := i + 1;
    }
    v := Accept;
  }

  /** A passing cell extends the run of passing cells by one. */
  lemma PassExtends(recipe: ItemRecipe, matrix: seq<Option<Item>>, i: nat, provider: ProviderMatch)
    requires i < |matrix| && CellsPass(recipe, matrix, i, provider)
    requires CellOk(recipe, i, matrix[i], provider) == Ok(true)
    ensures CellsPass(recipe, matrix, i + 1, provider)
  {
  }

  /** From cell i on, the shaped check accepts exactly when every cell passes. */
  lemma {:induction false} ShapedAccepts(recipe: ItemRecipe, matrix: seq<Option<Item>>, i: nat, provider: ProviderMatch)
    requires i <= |matrix| && CellsPass(recipe, matrix, i, provider)
    ensures ShapedFrom(recipe, matrix, i, provider) == Accept <==> CellsPass(recipe, matrix, |matrix|, provider)
    decreases |matrix| - i
  {
    if i < |matrix| {
      if CellOk(recipe, i, matrix[i], provider) == Ok(true) {
        PassExtends(recipe, matrix, i, provider);
        ShapedAccepts(recipe, matrix, i + 1, provider);
      } else {
        assert !CellsPass(recipe, matrix, |matrix|, provider);
      }
    }
  }

  /** From cell i on, the shaped check rejects exactly at a failing cell all of whose predecessors pass. */
  lemma {:induction false} ShapedRejects(recipe: ItemRecipe, matrix: seq<Option<Item>>, i: nat, provider: ProviderMatch)
    requires i <= |matrix| && CellsPass(recipe, matrix, i, provider)
    ensures ShapedFrom(recipe, matrix, i, provider) == Reject <==>
              exists k :: i <= k < |matrix| && CellsPass(recipe, matrix, k, provider) &&
                          CellOk(recipe, k, matrix[k], provider) == Ok(false)
    decreases |matrix| - i
  {
    if i < |matrix| {
      var here := CellOk(recipe, i, matrix[i], provider);
      if here == Ok(true) {
        PassExtends(recipe, matrix, i, provider);
        ShapedRejects(recipe, matrix, i + 1, provider);
        if exists k :: i <= k < |matrix| && CellsPass(recipe, matrix, k, provider) &&
                       CellOk(recipe, k, matrix[k], provider) == Ok(false) {
          var k :| i <= k < |matrix| && CellsPass(recipe, matrix, k, provider) &&
                   CellOk(recipe, k, matrix[k], provider) == Ok(false);
          assert k != i;
        }
      } else if here == Ok(false) {
        assert CellsPass(recipe, matrix, i, provider);
      } else {
        forall k | i <= k < |matrix| && CellsPass(recipe, matrix, k, provider)
          ensures CellOk(recipe, k, matrix[k], provider) != Ok(false)
        {
          if k > i {
            assert false;
          }
        }
      }
    }
  }

  /**
   * The shaped check rejects exactly when some cell fails while every cell
   * before it passes, and accepts exactly when every cell passes.
   */
  lemma ShapedVerdicts(recipe: ItemRecipe, matrix: seq<Option<Item>>, i: nat, provider: ProviderMatch)
    requires i <= |matrix| && CellsPass(recipe, matrix, i, provider)
    ensures ShapedFrom(recipe, matrix, i, provider) == Accept <==> CellsPass(recipe, matrix, |matrix|, provider)
    ensures ShapedFrom(recipe, matrix, i, provider) == Reject <==>
              exists k :: i <= k < |matrix| && CellsPass(recipe, matrix, k, provider) &&
                          CellOk(recipe, k, matrix[k], provider) == Ok(false)
  {
    ShapedAccepts(recipe, matrix, i, provider);
    ShapedRejects(recipe, matrix, i, provider);
  }

  /** A grid whose occupied cells are all empty or AIR is never rejected, whatever the pattern. */
  lemma EmptyCellsNeverReject(recipe: ItemRecipe, matrix: seq<Option<Item>>, provider: ProviderMatch)
    requires forall j :: 0 <= j < |matrix| ==> IsEmptySlot(matrix[j])
    ensures ShapedFrom(recipe, matrix, 0, provider) == Accept
  {
    ShapedVerdicts(recipe, matrix, 0, provider);
  }

  /**
   * A space in the pattern becomes '\U{1}', so an ingredient whose sign is
   * a space is never consulted: an item under a space in the pattern passes
   * when no ingredient carries '\U{1}'.
   */
  lemma SpaceCellPasses(recipe: ItemRecipe, i: nat, slot: Option<Item>, provider: ProviderMatch)
    requires recipe.pattern.Some? && i / 3 < |recipe.pattern.value|
    requires i % 3 < |recipe.pattern.value[i / 3]| && recipe.pattern.value[i / 3][i % 3] == ' '
    requires forall k :: 0 <= k < |recipe.ingredients| ==>
               recipe.ingredients[k].sign.Some? && recipe.ingredients[k].sign.value != '\U{1}'
    ensures CellOk(recipe, i, slot, provider) == Ok(true)
  {
  }

  // ---------------------------------------------------------- shapeless check

  /** Some non-empty, non-AIR grid item is similar to the ingredient. */
  predicate FoundIn(ing: Ingredient, matrix: seq<Option<Item>>, provider: ProviderMatch) {
    exists k :: 0 <= k < |matrix| && !IsEmptySlot(matrix[k]) && Matches(ing, matrix[k].value, provider)
  }

  /** checkGoodShapelessRecipe: reject exactly when some ingredient is found in no grid item. */
  function ShapelessVerdict(recipe: ItemRecipe, matrix: seq<Option<Item>>, provider: ProviderMatch): Verdict {
    if forall k :: 0 <= k < |recipe.ingredients| ==> FoundIn(recipe.ingredients[k], matrix, provider) then Accept
    else Reject
  }

  /** The stream's anyMatch over the grid. */
  method AnyMatch(ing: Ingredient, matrix: seq<Option<Item>>, provider: ProviderMatch) returns (found: bool)
    ensures found <==> FoundIn(ing, matrix, provider)
  {
    var k := 0;
    while k < |matrix|
      invariant 0 <= k <= |matrix|
      invariant forall j :: 0 <= j < k ==> IsEmptySlot(matrix[j]) || !Matches(ing, matrix[j].value, provider)
    {
      var stack := matrix[k];
      if !IsEmptySlot(stack) && Matches(ing, stack.value, provider) {
        return true;
      }
      k := k + 1;
    }
    return false;
  }

  /** The shapeless check: every ingredient in turn, stopping at the first one not found. */
  method CheckGoodShapelessRecipe(recipe: ItemRecipe, matrix: seq<Option<Item>>, provider: ProviderMatch) returns (v: Verdict)
    ensures v == ShapelessVerdict(recipe, matrix, provider)
  {
    var isSimilar := true;
    var i := 0;
    while i < |recipe.ingredients|
      invariant 0 <= i <= |recipe.ingredients|
      invariant isSimilar
      invariant forall k :: 0 <= k < i ==> FoundIn(recipe.ingredients[k], matrix, provider)
    {
      var found := AnyMatch(recipe.ingredients[i], matrix, provider);
      if !found {
        isSimilar := false;
        break;
      }
      i := i + 1;
    }
    v := if isSimilar then Accept else Reject;
  }

  /** Extra items never make the shapeless check reject: they are not checked. */
  lemma ExtraItemsNeverReject(recipe: ItemRecipe, matrix: seq<Option<Item>>, extra: seq<Option<Item>>, provider: ProviderMatch)
    requires ShapelessVerdict(recipe, matrix, provider) == Accept
    ensures ShapelessVerdict(recipe, matrix + extra, provider) == Accept
  {
    forall k | 0 <= k < |recipe.ingredients|
      ensures FoundIn(recipe.ingredients[k], matrix + extra, provider)
    {
      var j :| 0 <= j < |matrix| && !IsEmptySlot(matrix[j]) && Matches(recipe.ingredients[k], matrix[j].value, provider);
      assert (matrix + extra)[j] == matrix[j];
    }
  }

  /** Items are not consumed: one dirt block satisfies any number of dirt ingredients. */
  lemma ItemsNotConsumed(recipe: ItemRecipe, item: Item, provider: ProviderMatch)
    requires item.material != AIR
    requires forall k :: 0 <= k < |recipe.ingredients| ==> Matches(recipe.ingredients[k], item, provider)
    ensures ShapelessVerdict(recipe, [Some(item)], provider) == Accept
  {
    forall k | 0 <= k < |recipe.ingredients|
      ensures FoundIn(recipe.ingredients[k], [Some(item)], provider)
    {
      assert [Some(item)][0] == Some(item);
    }
  }

  // ------------------------------------------------------------ craft dispatch

  /** One registered recipe in onPrepareCraft: checked only if of the event's kind and with its key. */
  function CraftStep(plugin: Option<string>, event: ServerRecipe, r: ItemRecipe, matrix: seq<Option<Item>>,
                     provider: ProviderMatch): Verdict
  {
    if event.kind == ShapedKind && r.recipeType == CraftingShaped then
      match GetKey(plugin, r)
      case Err(e) => Fail(e)
      case Ok(k) => if k != event.key then Accept else ShapedFrom(r, matrix, 0, provider)
    else if event.kind == ShapelessKind && r.recipeType == CraftingShapeless then
      match GetKey(plugin, r)
      case Err(e) => Fail(e)
      case Ok(k) => if k != event.key then Accept else ShapelessVerdict(r, matrix, provider)
    else Accept
  }

  /** What onPrepareCraft's loop decides for each registered recipe, in list order. */
  function CraftVerdicts(plugin: Option<string>, event: ServerRecipe, recipes: seq<ItemRecipe>,
                         matrix: seq<Option<Item>>, provider: ProviderMatch): (vs: seq<Verdict>)
    ensures |vs| == |recipes|
  {
    seq(|recipes|, k requires 0 <= k < |recipes| => CraftStep(plugin, event, recipes[k], matrix, provider))
  }

  /** The body of onPrepareCraft's loop for one registered recipe. */
  method CheckRegistered(plugin: Option<string>, event: ServerRecipe, r: ItemRecipe, matrix: seq<Option<Item>>,
                         provider: ProviderMatch) returns (v: Verdict)
    ensures v == CraftStep(plugin, event, r, matrix, provider)
  {
    v := Accept;
    if event.kind == ShapedKind && r.recipeType == CraftingShaped {
      var k := GetKey(plugin, r);
      if k.Err? {
        return Fail(k.error);
      }
      if k.value == event.key {
        v := CheckGoodShapedRecipe(r, matrix, provider);
      }
    } else if event.kind == ShapelessKind && r.recipeType == CraftingShapeless {
      var k := GetKey(plugin, r);
      if k.Err? {
        return Fail(k.error);
      }
      if k.value == event.key {
        v := CheckGoodShapelessRecipe(r, matrix, provider);
      }
    }
  }

  /** onPrepareCraft: nothing without a recipe, else every registered crafting recipe in list order. */
  method OnPrepareCraft(plugin: Option<string>, event: Option<ServerRecipe>, recipes: seq<ItemRecipe>,
                        matrix: seq<Option<Item>>, provider: ProviderMatch) returns (e: Effect)
    ensures event.None? ==> e == Unchanged
    ensures event.Some? ==> e == Sweep(CraftVerdicts(plugin, event.value, recipes, matrix, provider), 0)
  {
    if event.None? {
      return Unchanged;
    }
    var recipe := event.value;
    ghost var verdicts := CraftVerdicts(plugin, recipe, recipes, matrix, provider);
    var cleared := false;
    var i := 0;
    while i < |recipes|
      invariant 0 <= i <= |recipes|
      invariant Sweep(verdicts, 0) == Merge(cleared, Sweep(verdicts, i))
    {
      var v := CheckRegistered(plugin, recipe, recipes[i], matrix, provider);
      assert v == verdicts[i];
      if v.Fail? {
        return Effect(cleared, Threw(v.error));
      }
      if v == Reject {
        cleared := true;
      }
      i := i + 1;
    }
    return Effect(cleared, Done);
  }

  /**
   * Only registered recipes of the event's kind with the event's key are
   * looked at: with none of them, the event is left alone.
   */
  lemma OnlySameKindAndKey(plugin: string, event: ServerRecipe, recipes: seq<ItemRecipe>,
                           matrix: seq<Option<Item>>, provider: ProviderMatch)
    requires forall k :: 0 <= k < |recipes| ==>
               KeyFor(plugin, recipes[k].recipeType, recipes[k].recipeName) != event.key ||
               !((event.kind == ShapedKind && recipes[k].recipeType == CraftingShaped) ||
                 (event.kind == ShapelessKind && recipes[k].recipeType == CraftingShapeless))
    ensures Sweep(CraftVerdicts(Some(plugin), event, recipes, matrix, provider), 0) == Unchanged
  {
    var verdicts := CraftVerdicts(Some(plugin), event, recipes, matrix, provider);
    assert forall k :: 0 <= k < |verdicts| ==> verdicts[k] == Accept;
    SweepChangesIff(verdicts, 0);
  }

  // ----------------------------------------------------------- smithing check

  /** The positional test: template against ingredients[0], base [1], addition [2], stopping at the first mismatch. */
  function SmithingMatch(ings: seq<Ingredient>, template: Option<Item>, base: Option<Item>, addition: Option<Item>,
                         provider: ProviderMatch): (r: Result<bool>)
    ensures |ings| >= 3 && template.Some? && base.Some? && addition.Some? ==>
              r == Ok(Matches(ings[0], template.value, provider) && Matches(ings[1], base.value, provider) &&
                      Matches(ings[2], addition.value, provider))
    ensures |ings| < 3 ==> r.Err?
  {
    if |ings| < 3 then Err(Crash("ArrayIndexOutOfBoundsException: fewer than three ingredients"))
    else
      var t :- SimilarSlot(ings[0], template, provider);
      if !t then Ok(false)
      else
        var b :- SimilarSlot(ings[1], base, provider);
        if !b then Ok(false)
        else SimilarSlot(ings[2], addition, provider)
  }

  /** The loop of onSmithingTransform from the i-th registered recipe; the first mismatch clears and returns. */
  function SmithingFrom(plugin: Option<string>, key: NamespacedKey, recipes: seq<ItemRecipe>, i: nat,
                        slots: seq<Option<Item>>, provider: ProviderMatch): Effect
    requires i <= |recipes| && |slots| == 3
    decreases |recipes| - i
  {
    if i == |recipes| then Unchanged
    else if recipes[i].recipeType != SmithingTransform then SmithingFrom(plugin, key, recipes, i + 1, slots, provider)
    else match GetKey(plugin, recipes[i])
      case Err(e) => Effect(false, Threw(e))
      case Ok(k) =>
        if k != key then SmithingFrom(plugin, key, recipes, i + 1, slots, provider)
        else match SmithingMatch(recipes[i].ingredients, slots[0], slots[1], slots[2], provider)
          case Err(e) => Effect(false, Threw(e))
          case Ok(false) => Effect(true, Done)
          case Ok(true) => SmithingFrom(plugin, key, recipes, i + 1, slots, provider)
  }

  /**
   * onSmithingTransform: no recipe, an empty or AIR result, or a trim recipe
   * leave the event alone; a recipe that is not a smithing one fails the cast.
   */
  method OnSmithingTransform(plugin: Option<string>, event: Option<ServerRecipe>, result: Option<Item>,
                             slots: seq<Option<Item>>, recipes: seq<ItemRecipe>, provider: ProviderMatch) returns (e: Effect)
    requires |slots| == 3
    ensures event.None? ==> e == Unchanged
    ensures event.Some? && event.value.kind !in {SmithingTransformKind, SmithingTrimKind} ==>
              e == Effect(false, Threw(Crash("ClassCastException: not a smithing recipe")))
    ensures event.Some? && event.value.kind == SmithingTrimKind ==> e == Unchanged
    ensures event.Some? && event.value.kind == SmithingTransformKind && IsEmptySlot(result) ==> e == Unchanged
    ensures event.Some? && event.value.kind == SmithingTransformKind && !IsEmptySlot(result) ==>
              e == SmithingFrom(plugin, event.value.key, recipes, 0, slots, provider)
  {
    if event.None? {
      return Unchanged;
    }
    var recipe := event.value;
    if recipe.kind != SmithingTransformKind && recipe.kind != SmithingTrimKind {
      return Effect(false, Threw(Crash("ClassCastException: not a smithing recipe")));
    }
    if IsEmptySlot(result) {
      return Unchanged;
    }
    if recipe.kind == SmithingTrimKind {
      return Unchanged;
    }
    var i := 0;
    while i < |recipes|
      invariant 0 <= i <= |recipes|
      invariant SmithingFrom(plugin, recipe.key, recipes, 0, slots, provider) ==
                SmithingFrom(plugin, recipe.key, recipes, i, slots, provider)
    {
      var r := recipes[i];
      if r.recipeType == SmithingTransform {
        var k := GetKey(plugin, r);
        if k.Err? {
          return Effect(false, Threw(k.error));
        }
        if k.value == recipe.key {
          var similar := SmithingMatch(r.ingredients, slots[0], slots[1], slots[2], provider);
          if similar.Err? {
            return Effect(false, Threw(similar.error));
          }
          if !similar.value {
            return Effect(true, Done);
          }
        }
      }
      i := i + 1;
    }
    return Unchanged;
  }

  /**
   * With the plugin registered and all three slots filled, the smithing
   * check clears the result exactly when some registered transform recipe
   * with the event's key, of at least three ingredients, fails the
   * positional test (all earlier ones having passed).
   */
  lemma {:induction false} SmithingClearsIff(plugin: string, key: NamespacedKey, recipes: seq<ItemRecipe>, i: nat,
                                             slots: seq<Option<Item>>, provider: ProviderMatch)
    requires i <= |recipes| && |slots| == 3 && slots[0].Some? && slots[1].Some? && slots[2].Some?
    requires forall k :: (i <= k < |recipes| && recipes[k].recipeType == SmithingTransform &&
                          KeyFor(plugin, SmithingTransform, recipes[k].recipeName) == key) ==> |recipes[k].ingredients| >= 3
    ensures SmithingFrom(Some(plugin), key, recipes, i, slots, provider).outcome.Done?
    ensures SmithingFrom(Some(plugin), key, recipes, i, slots, provider).changed <==>
              exists k :: i <= k < |recipes| && recipes[k].recipeType == SmithingTransform &&
                          KeyFor(plugin, SmithingTransform, recipes[k].recipeName) == key &&
                          SmithingMatch(recipes[k].ingredients, slots[0], slots[1], slots[2], provider) == Ok(false)
    decreases |recipes| - i
  {
    if i < |recipes| {
      SmithingClearsIff(plugin, key, recipes, i + 1, slots, provider);
      var r := recipes[i];
      if r.recipeType == SmithingTransform && KeyFor(plugin, SmithingTransform, r.recipeName) == key {
        var m := SmithingMatch(r.ingredients, slots[0], slots[1], slots[2], provider);
        assert m.Ok?;
        if m == Ok(true) {
          if exists k :: i <= k < |recipes| && recipes[k].recipeType == SmithingTransform &&
                         KeyFor(plugin, SmithingTransform, recipes[k].recipeName) == key &&
                         SmithingMatch(recipes[k].ingredients, slots[0], slots[1], slots[2], provider) == Ok(false) {
            var k :| i <= k < |recipes| && recipes[k].recipeType == SmithingTransform &&
                     KeyFor(plugin, SmithingTransform, recipes[k].recipeName) == key &&
                     SmithingMatch(recipes[k].ingredients, slots[0], slots[1], slots[2], provider) == Ok(false);
            assert k != i;
          }
        }
      } else {
        if exists k :: i <= k < |recipes| && recipes[k].recipeType == SmithingTransform &&
                       KeyFor(plugin, SmithingTransform, recipes[k].recipeName) == key &&
                       SmithingMatch(recipes[k].ingredients, slots[0], slots[1], slots[2], provider) == Ok(false) {
          var k :| i <= k < |recipes| && recipes[k].recipeType == SmithingTransform &&
                   KeyFor(plugin, SmithingTransform, recipes[k].recipeName) == key &&
                   SmithingMatch(recipes[k].ingredients, slots[0], slots[1], slots[2], provider) == Ok(false);
          assert k != i;
        }
      }
    }
  }

  // ----------------------------------------------------------- smelting check

  /**
   * One registered recipe in onSmelt: a cooking-kind recipe whose key is among
   * the server's furnace recipes for the result is checked on its first
   * ingredient. The key is computed only when there is a furnace recipe to
   * compare it with.
   */
  function SmeltStep(plugin: Option<string>, r: ItemRecipe, furnaceKeys: seq<NamespacedKey>, source: Item,
                     provider: ProviderMatch): (v: Verdict)
    ensures !IsSmelting(r.recipeType) || furnaceKeys == [] ==> v == Accept
  {
    if !IsSmelting(r.recipeType) || furnaceKeys == [] then Accept
    else match GetKey(plugin, r)
      case Err(e) => Fail(e)
      case Ok(k) =>
        if k !in furnaceKeys then Accept
        else if |r.ingredients| == 0 then Fail(Crash("ArrayIndexOutOfBoundsException: no ingredient"))
        else if Matches(r.ingredients[0], source, provider) then Accept
        else Reject
  }

  /** What onSmelt's loop decides for each registered recipe, in list order. */
  function SmeltVerdicts(plugin: Option<string>, recipes: seq<ItemRecipe>, furnaceKeys: seq<NamespacedKey>,
                         source: Item, provider: ProviderMatch): (vs: seq<Verdict>)
    ensures |vs| == |recipes|
    ensures forall k :: 0 <= k < |recipes| ==> vs[k] == SmeltStep(plugin, recipes[k], furnaceKeys, source, provider)
  {
    seq(|recipes|, k requires 0 <= k < |recipes| => SmeltStep(plugin, recipes[k], furnaceKeys, source, provider))
  }

  /**
   * onSmelt: an event already cancelled, or with an empty or AIR source, is
   * left alone; otherwise every registered recipe is looked at.
   */
  method OnSmelt(plugin: Option<string>, cancelled: bool, source: Option<Item>, furnaceKeys: seq<NamespacedKey>,
                 recipes: seq<ItemRecipe>, provider: ProviderMatch) returns (e: Effect)
    ensures cancelled || IsEmptySlot(source) ==> e == Unchanged
    ensures !cancelled && !IsEmptySlot(source) ==>
              e == Sweep(SmeltVerdicts(plugin, recipes, furnaceKeys, source.value, provider), 0)
  {
    if cancelled {
      return Unchanged;
    }
    if IsEmptySlot(source) {
      return Unchanged;
    }
    var item := source.value;
    ghost var verdicts := SmeltVerdicts(plugin, recipes, furnaceKeys, item, provider);
    var cancel := false;
    var i := 0;
    while i < |recipes|
      invariant 0 <= i <= |recipes|
      invariant Sweep(verdicts, 0) == Merge(cancel, Sweep(verdicts, i))
    {
      var v := SmeltStep(plugin, recipes[i], furnaceKeys, item, provider);
      assert v == verdicts[i];
      if v.Fail? {
        return Effect(cancel, Threw(v.error));
      }
      if v == Reject {
        cancel := true;
      }
      i := i + 1;
    }
    return Effect(cancel, Done);
  }

  /**
   * With the plugin registered and every registered recipe holding an
   * ingredient, the smelt handler never throws, and it cancels exactly when
   * some cooking recipe whose key the server lists for the result has a
   * first ingredient that does not match the source.
   */
  lemma SmeltCancelsIff(plugin: string, recipes: seq<ItemRecipe>, furnaceKeys: seq<NamespacedKey>,
                        source: Item, provider: ProviderMatch)
    requires forall k :: 0 <= k < |recipes| ==> |recipes[k].ingredients| > 0
    ensures Sweep(SmeltVerdicts(Some(plugin), recipes, furnaceKeys, source, provider), 0).outcome.Done?
    ensures Sweep(SmeltVerdicts(Some(plugin), recipes, furnaceKeys, source, provider), 0).changed <==>
              exists k :: 0 <= k < |recipes| && IsSmelting(recipes[k].recipeType) &&
                          KeyFor(plugin, recipes[k].recipeType, recipes[k].recipeName) in furnaceKeys &&
                          !Matches(recipes[k].ingredients[0], source, provider)
  {
    var verdicts := SmeltVerdicts(Some(plugin), recipes, furnaceKeys, source, provider);
    assert forall k :: 0 <= k < |verdicts| ==> !verdicts[k].Fail?;
    SweepChangesIff(verdicts, 0);
    if exists k :: 0 <= k < |verdicts| && verdicts[k] == Reject {
      var k :| 0 <= k < |verdicts| && verdicts[k] == Reject;
      assert furnaceKeys != [];
    }
  }
}
