/**
 * The state both recipe builders share, and what each of their setters does
 * to it. A setter either returns (the new state) or throws (the state is left
 * as it was); the two builder classes apply these steps to their fields.
 */
module RecipeDraft {
  import opened Wrappers
  import opened Items
  import opened Ingredients
  import opened RecipeTypes
  import opened ItemRecipes

  /** The fields common to both builders; `None` is a field still null. */
  datatype Draft = Draft(
    ingredients: seq<Ingredient>,
    name: Option<string>,
    amount: int,
    recipeType: Option<RecipeType>,
    group: string,
    category: string,
    pattern: Option<seq<string>>,
    cookingTime: int,
    experience: real)

  /** A new builder: amount 1, empty group and category, nothing else set. */
  const Initial := Draft([], None, 1, None, "", "", None, 0, 0.0)

  /** What a setter did: its result as the builder state, given the state before it. */
  predicate Applied(before: Draft, step: Result<Draft>, o: Outcome, after: Draft) {
    match step
    case Ok(d) => o == Done && after == d
    case Err(e) => o == Threw(e) && after == before
  }

  const TypeNotSet := Invalid("Recipe type is not set")

  // ---------------------------------------------------------------- patterns

  /** Every row has 1 to 3 characters. */
  predicate LengthsInRange(p: seq<string>) {
    forall i :: 0 <= i < |p| ==> 1 <= |p[i]| <= 3
  }

  /** The distinct row lengths. */
  function RowLengths(p: seq<string>): set<int> {
    set i | 0 <= i < |p| :: |p[i]|
  }

  /** The check of setPattern as written: lengths in range and exactly one distinct length. */
  predicate AreLengthsValid(p: seq<string>) {
    LengthsInRange(p) && |RowLengths(p)| == 1
  }

  /** A crafting grid: 1 to 3 rows, all of the same length, 1 to 3 characters. */
  predicate Rectangular(p: seq<string>) {
    && 1 <= |p| <= 3
    && 1 <= |p[0]| <= 3
    && forall i :: 0 <= i < |p| ==> |p[i]| == |p[0]|
  }

  /** One distinct length among rows of 1 to 3 characters is a grid of at least one row. */
  lemma AreLengthsValidIffRectangular(p: seq<string>)
    requires |p| <= 3
    ensures AreLengthsValid(p) <==> Rectangular(p)
  {
    var lengths := RowLengths(p);
    if Rectangular(p) {
      assert |p[0]| in lengths;
      assert lengths == {|p[0]|};
    }
    if AreLengthsValid(p) {
      var only :| only in lengths;
      assert |lengths - {only}| == 0;
      assert lengths == {only};
      assert |p[0]| in lengths;
      forall i | 0 <= i < |p|
        ensures |p[i]| == |p[0]|
      {
        assert |p[i]| in lengths;
      }
    }
  }

  /** Some row of the pattern holds the character (the stream over all characters of all rows). */
  predicate PatternContains(p: seq<string>, c: char) {
    exists i :: 0 <= i < |p| && c in p[i]
  }

  // ------------------------------------------------------------------ setters

  /** setName: needs the type. */
  function SetNameStep(d: Draft, name: string): (r: Result<Draft>)
    ensures r.Ok? <==> d.recipeType.Some?
    ensures r.Err? ==> r.error == TypeNotSet
    ensures r.Ok? ==> r.value == d.(name := Some(name))
  {
    if d.recipeType.None? then Err(TypeNotSet) else Ok(d.(name := Some(name)))
  }

  /** setAmount: no check at all. */
  function SetAmountStep(d: Draft, amount: int): (r: Draft)
    ensures r.amount == amount && r.(amount := d.amount) == d
  {
    d.(amount := amount)
  }

  /** setType: no check; it may change the type after ingredients were added. */
  function SetTypeStep(d: Draft, t: RecipeType): (r: Draft)
    ensures r.recipeType == Some(t) && r.(recipeType := d.recipeType) == d
  {
    d.(recipeType := Some(t))
  }

  /**
   * addIngredient: the type must be set and have room; for a shaped recipe
   * the pattern must be set first and the ingredient's sign must occur in it.
   */
  function AddIngredientStep(d: Draft, ing: Ingredient): (r: Result<Draft>)
    ensures r.Ok? <==>
              && d.recipeType.Some?
              && |d.ingredients| < MaxIngredients(d.recipeType.value)
              && (d.recipeType.value == CraftingShaped ==>
                    d.pattern.Some? && ing.sign.Some? && PatternContains(d.pattern.value, ing.sign.value))
    ensures r.Ok? ==> r.value == d.(ingredients := d.ingredients + [ing])
    ensures r.Err? ==> r.error.Invalid?
    ensures d.recipeType.None? ==> r == Err(TypeNotSet)
    ensures d.recipeType.Some? && |d.ingredients| >= MaxIngredients(d.recipeType.value) ==>
              r == Err(Invalid("Too many ingredients"))
  {
    if d.recipeType.None? then Err(TypeNotSet)
    else if MaxIngredients(d.recipeType.value) <= |d.ingredients| then Err(Invalid("Too many ingredients"))
    else if d.recipeType.value == CraftingShaped && d.pattern.None? then Err(Invalid("Pattern is not set"))
    else if d.recipeType.value == CraftingShaped && ing.sign.None? then Err(Invalid("Ingredient sign is not set"))
    else if d.recipeType.value == CraftingShaped && !PatternContains(d.pattern.value, ing.sign.value) then
      Err(Invalid("Pattern does not contain the ingredient sign"))
    else Ok(d.(ingredients := d.ingredients + [ing]))
  }

  /** setGroup: needs the type. */
  function SetGroupStep(d: Draft, group: string): (r: Result<Draft>)
    ensures r.Ok? <==> d.recipeType.Some?
    ensures r.Err? ==> r.error == TypeNotSet
    ensures r.Ok? ==> r.value == d.(group := group)
  {
    if d.recipeType.None? then Err(TypeNotSet) else Ok(d.(group := group))
  }

  /** setCategory: needs the type, and a stonecutting recipe has no category; the name is not checked. */
  function SetCategoryStep(d: Draft, category: string): (r: Result<Draft>)
    ensures r.Ok? <==> d.recipeType.Some? && d.recipeType.value != StoneCutting
    ensures r.Err? ==> r.error.Invalid?
    ensures r.Ok? ==> r.value == d.(category := category)
  {
    if d.recipeType.None? then Err(TypeNotSet)
    else if d.recipeType.value == StoneCutting then Err(Invalid("Category is not valid for STONE_CUTTING type"))
    else Ok(d.(category := category))
  }

  /** setPattern: only for a shaped recipe, and only a grid of 1 to 3 rows of one length of 1 to 3. */
  function SetPatternStep(d: Draft, p: seq<string>): (r: Result<Draft>)
    ensures r.Ok? <==> d.recipeType == Some(CraftingShaped) && Rectangular(p)
    ensures r.Err? ==> r.error.Invalid?
    ensures r.Ok? ==> r.value == d.(pattern := Some(p))
    ensures d.recipeType == Some(CraftingShaped) && |p| > 3 ==> r == Err(Invalid("Pattern is too long"))
  {
    if d.recipeType.None? then Err(TypeNotSet)
    else if d.recipeType.value != CraftingShaped then Err(Invalid("Recipe type is not a shaped recipe"))
    else if |p| > 3 then Err(Invalid("Pattern is too long"))
    else
      AreLengthsValidIffRectangular(p);
      if !AreLengthsValid(p) then Err(Invalid("Pattern is not valid"))
      else Ok(d.(pattern := Some(p)))
  }

  /** setCookingTime: only for the four cooking kinds. */
  function SetCookingTimeStep(d: Draft, time: int): (r: Result<Draft>)
    ensures r.Ok? <==> d.recipeType.Some? && IsSmelting(d.recipeType.value)
    ensures r.Err? ==> r.error.Invalid?
    ensures r.Ok? ==> r.value == d.(cookingTime := time)
  {
    if d.recipeType.None? then Err(TypeNotSet)
    else if !IsSmelting(d.recipeType.value) then Err(Invalid("Recipe type is not a smelting recipe"))
    else Ok(d.(cookingTime := time))
  }

  /** setExperience: only for the four cooking kinds. */
  function SetExperienceStep(d: Draft, experience: real): (r: Result<Draft>)
    ensures r.Ok? <==> d.recipeType.Some? && IsSmelting(d.recipeType.value)
    ensures r.Err? ==> r.error.Invalid?
    ensures r.Ok? ==> r.value == d.(experience := experience)
  {
    if d.recipeType.None? then Err(TypeNotSet)
    else if !IsSmelting(d.recipeType.value) then Err(Invalid("Recipe type is not a smelting recipe"))
    else Ok(d.(experience := experience))
  }

  // ------------------------------------------------- the interface's overloads

  const NoSignOnShaped := Unsupported("You can't add an ingredient without sign to a shaped recipe")

  /** addIngredient(tag, sign); addIngredient(tag) passes a null sign. */
  function AddTagStep(d: Draft, tag: Tag, sign: Option<char>): (r: Result<Draft>)
    ensures r == AddIngredientStep(d, TagIngredient(tag, sign))
    ensures r.Ok? ==> r.value.ingredients == d.ingredients + [TagIngredient(tag, sign)]
  {
    AddIngredientStep(d, TagIngredient(tag, sign))
  }

  /** addIngredient(item, sign, strict) and its shorter forms (item, strict) and (item, sign). */
  function AddItemStep(d: Draft, item: Item, sign: Option<char>, strict: bool): (r: Result<Draft>)
    ensures r == AddIngredientStep(d, if strict then StrictItemStackIngredient(item, sign) else ItemStackIngredient(item, sign))
    ensures r.Ok? ==> |r.value.ingredients| == |d.ingredients| + 1
    ensures r.Ok? ==> var added := r.value.ingredients[|d.ingredients|];
              (if strict then added.StrictItemStackIngredient? else added.ItemStackIngredient?) &&
              added.sign == sign && added.item == item
  {
    AddIngredientStep(d, if strict then StrictItemStackIngredient(item, sign) else ItemStackIngredient(item, sign))
  }

  /** addIngredient(item): refused outright on a shaped recipe, else a loose stack with no sign. */
  function AddItemWithoutSignStep(d: Draft, item: Item): (r: Result<Draft>)
    ensures d.recipeType == Some(CraftingShaped) ==> r == Err(NoSignOnShaped)
    ensures d.recipeType != Some(CraftingShaped) ==> r == AddItemStep(d, item, None, false)
  {
    if d.recipeType == Some(CraftingShaped) then Err(NoSignOnShaped)
    else AddItemStep(d, item, None, false)
  }

  /** addIngredient(material, sign). */
  function AddMaterialStep(d: Draft, m: Material, sign: Option<char>): (r: Result<Draft>)
    ensures r == AddIngredientStep(d, MaterialIngredient(m, sign))
    ensures r.Ok? ==> r.value.ingredients == d.ingredients + [MaterialIngredient(m, sign)]
    ensures r.Err? ==> r.error.Invalid?
  {
    AddIngredientStep(d, MaterialIngredient(m, sign))
  }

  /** addIngredient(material): refused outright on a shaped recipe, else no sign. */
  function AddMaterialWithoutSignStep(d: Draft, m: Material): (r: Result<Draft>)
    ensures d.recipeType == Some(CraftingShaped) ==> r == Err(NoSignOnShaped)
    ensures d.recipeType != Some(CraftingShaped) ==> r == AddMaterialStep(d, m, None)
  {
    if d.recipeType == Some(CraftingShaped) then Err(NoSignOnShaped)
    else AddMaterialStep(d, m, None)
  }

  /**
   * The shaped refusal of the sign-less overloads is redundant: addIngredient
   * itself would refuse a sign-less ingredient on a shaped recipe, only with
   * an IllegalArgumentException instead.
   */
  lemma SignlessShapedRefusedEitherWay(d: Draft, item: Item)
    requires d.recipeType == Some(CraftingShaped)
    ensures AddItemWithoutSignStep(d, item).Err?
    ensures AddItemStep(d, item, None, false).Err?
    ensures AddItemStep(d, item, None, false).error.Invalid?
  {
  }

  // ---------------------------------------------------------- the varargs form

  /** The builder state after a loop that may stop early, and how the loop ended. */
  datatype Run = Run(draft: Draft, outcome: Outcome)

  /** addIngredient(Ingredient...): one at a time; the first that throws ends the loop, keeping the earlier ones. */
  function AddAllStep(d: Draft, ings: seq<Ingredient>): Run
    decreases |ings|
  {
    if ings == [] then Run(d, Done)
    else match AddIngredientStep(d, ings[0])
      case Ok(next) => AddAllStep(next, ings[1..])
      case Err(e) => Run(d, Threw(e))
  }

  /**
   * The loop appends a prefix of the arguments and changes nothing else; all
   * of them when it returns, fewer when it throws.
   */
  lemma {:induction false} AddAllAppendsPrefix(d: Draft, ings: seq<Ingredient>)
    ensures var run := AddAllStep(d, ings);
            exists k :: 0 <= k <= |ings| && run.draft == d.(ingredients := d.ingredients + ings[..k]) &&
                        (run.outcome.Done? <==> k == |ings|)
    decreases |ings|
  {
    var run := AddAllStep(d, ings);
    if ings == [] {
      assert run.draft == d.(ingredients := d.ingredients + ings[..0]);
    } else {
      match AddIngredientStep(d, ings[0])
      case Ok(next) =>
        AddAllAppendsPrefix(next, ings[1..]);
        var k :| 0 <= k <= |ings[1..]| && run.draft == next.(ingredients := next.ingredients + ings[1..][..k]) &&
                 (run.outcome.Done? <==> k == |ings[1..]|);
        assert d.ingredients + [ings[0]] + ings[1..][..k] == d.ingredients + ings[..k + 1];
        assert run.draft == d.(ingredients := d.ingredients + ings[..k + 1]);
      case Err(_) =>
        assert run.draft == d.(ingredients := d.ingredients + ings[..0]);
    }
  }

  // ---------------------------------------------------------------- invariant

  /**
   * The invariant of both builders: a pattern, once set, is a grid, and a
   * builder with a name has a type (setName needs one and nothing unsets it).
   */
  predicate Valid(d: Draft) {
    && (d.pattern.Some? ==> Rectangular(d.pattern.value))
    && (d.name.Some? ==> d.recipeType.Some?)
  }

  lemma InitialValid()
    ensures Valid(Initial) && Initial.ingredients == [] && Initial.amount == 1
  {
  }

  /** Every setter that returns keeps the invariant. */
  lemma StepsKeepValid(d: Draft, name: string, amount: int, t: RecipeType, ing: Ingredient, text: string,
                       p: seq<string>, time: int, experience: real)
    requires Valid(d)
    ensures SetNameStep(d, name).Ok? ==> Valid(SetNameStep(d, name).value)
    ensures Valid(SetAmountStep(d, amount)) && Valid(SetTypeStep(d, t))
    ensures AddIngredientStep(d, ing).Ok? ==> Valid(AddIngredientStep(d, ing).value)
    ensures SetGroupStep(d, text).Ok? ==> Valid(SetGroupStep(d, text).value)
    ensures SetCategoryStep(d, text).Ok? ==> Valid(SetCategoryStep(d, text).value)
    ensures SetPatternStep(d, p).Ok? ==> Valid(SetPatternStep(d, p).value)
    ensures SetCookingTimeStep(d, time).Ok? ==> Valid(SetCookingTimeStep(d, time).value)
    ensures SetExperienceStep(d, experience).Ok? ==> Valid(SetExperienceStep(d, experience).value)
  {
  }

  /** The varargs loop keeps the invariant too, whether it returns or throws. */
  lemma {:induction false} AddAllKeepsValid(d: Draft, ings: seq<Ingredient>)
    requires Valid(d)
    ensures Valid(AddAllStep(d, ings).draft)
  {
    AddAllAppendsPrefix(d, ings);
  }

  /**
   * getItemRecipe's "Pattern is empty" check can never fire for a builder:
   * setPattern never stores an empty pattern.
   */
  lemma PatternNeverEmpty(d: Draft, t: RecipeType, name: string, result: ResultSpec, priority: int)
    requires Valid(d)
    ensures GetItemRecipe(d.ingredients, t, d.pattern, d.cookingTime, name, d.group, d.category,
                          result, d.amount, d.experience, priority) != Err(Invalid("Pattern is empty"))
  {
  }

  /** An ingredient goes in only while the current type has room for it. */
  lemma IngredientsWithinLimit(d: Draft, ing: Ingredient)
    requires AddIngredientStep(d, ing).Ok?
    ensures |AddIngredientStep(d, ing).value.ingredients| <= MaxIngredients(d.recipeType.value)
  {
  }
}
