/**
 * The recipe builder of the current revision: the result is kept as the
 * encoded item text, and a priority is passed on to the built recipe.
 */
module Builder {
  import opened Wrappers
  import opened Items
  import opened Ingredients
  import opened RecipeTypes
  import opened ItemRecipes
  import opened RecipeDraft

  /**
   * build(): name, result and type must be set (in that order), then
   * getItemRecipe runs its own checks on the rest.
   */
  function BuildRecipe(d: Draft, result: Option<string>, priority: int): (r: Result<ItemRecipe>)
    ensures r.Ok? <==> d.name.Some? && result.Some? && d.recipeType.Some? &&
                       Buildable(d.ingredients, d.recipeType.value, d.pattern, d.cookingTime)
    ensures d.name.None? ==> r == Err(Invalid("Name is not set"))
    ensures d.name.Some? && result.None? ==> r == Err(Invalid("Result is not set"))
    ensures r.Ok? ==> r.value.recipeName == d.name.value && r.value.result == Descriptor(result.value)
    ensures r.Ok? ==> r.value.recipeType == d.recipeType.value && r.value.ingredients == d.ingredients
    ensures r.Ok? ==> r.value.pattern == d.pattern && r.value.priority == priority && r.value.amount == d.amount
    ensures r.Ok? ==> r.value.group == d.group && r.value.category == d.category
    ensures r.Ok? ==> r.value.cookingTime == d.cookingTime && r.value.experience == d.experience
  {
    if d.name.None? then Err(Invalid("Name is not set"))
    else if result.None? then Err(Invalid("Result is not set"))
    else if d.recipeType.None? then Err(Invalid("Type is not set"))
    else GetItemRecipe(d.ingredients, d.recipeType.value, d.pattern, d.cookingTime, d.name.value, d.group,
                       d.category, Descriptor(result.value), d.amount, d.experience, priority)
  }

  /** In a builder, build's "Type is not set" and "Pattern is empty" can never be the answer. */
  lemma BuildNeverReportsUnreachableErrors(d: Draft, result: Option<string>, priority: int)
    requires Valid(d)
    ensures BuildRecipe(d, result, priority) != Err(Invalid("Type is not set"))
    ensures BuildRecipe(d, result, priority) != Err(Invalid("Pattern is empty"))
  {
    if d.name.Some? && result.Some? {
      PatternNeverEmpty(d, d.recipeType.value, d.name.value, Descriptor(result.value), priority);
    }
  }

  class RecipeBuilder {
    var ingredientList: seq<Ingredient>
    var name: Option<string>
    var result: Option<string>
    var amount: int
    var recipeType: Option<RecipeType>
    var group: string
    var category: string
    var cookingTime: int
    var experience: real
    var priority: int
    var pattern: Option<seq<string>>

    /** The fields both builders share. */
    function State(): Draft
      reads this
    {
      Draft(ingredientList, name, amount, recipeType, group, category, pattern, cookingTime, experience)
    }

    ghost predicate Valid()
      reads this
    {
      RecipeDraft.Valid(State())
    }

    constructor ()
      ensures State() == Initial && result.None? && priority == 0
      ensures Valid()
    {
      ingredientList := [];
      name := None;
      result := None;
      amount := 1;
      recipeType := None;
      group := "";
      category := "";
      cookingTime := 0;
      experience := 0.0;
      priority := 0;
      pattern := None;
    }

    method SetName(n: string) returns (o: Outcome)
      requires Valid()
      modifies this
      ensures Applied(old(State()), SetNameStep(old(State()), n), o, State())
      ensures result == old(result) && priority == old(priority)
      ensures Valid()
    {
      if recipeType.None? {
        return Threw(TypeNotSet);
      }
      name := Some(n);
      return Done;
    }

    /** setResult: the item arrives already encoded (Util.fromItemStack). */
    method SetResult(encoded: string) returns (o: Outcome)
      requires Valid()
      modifies this
      ensures recipeType.None? ==> o == Threw(TypeNotSet) && result == old(result)
      ensures recipeType.Some? ==> o == Done && result == Some(encoded)
      ensures State() == old(State()) && priority == old(priority)
      ensures Valid()
    {
      if recipeType.None? {
        return Threw(TypeNotSet);
      }
      result := Some(encoded);
      return Done;
    }

    method SetAmount(a: int)
      requires Valid()
      modifies this
      ensures State() == SetAmountStep(old(State()), a)
      ensures result == old(result) && priority == old(priority)
      ensures Valid()
    {
      amount := a;
    }

    method SetType(t: RecipeType)
      requires Valid()
      modifies this
      ensures State() == SetTypeStep(old(State()), t)
      ensures result == old(result) && priority == old(priority)
      ensures Valid()
    {
      recipeType := Some(t);
    }

    method AddIngredient(ing: Ingredient) returns (o: Outcome)
      requires Valid()
      modifies this
      ensures Applied(old(State()), AddIngredientStep(old(State()), ing), o, State())
      ensures result == old(result) && priority == old(priority)
      ensures Valid()
    {
      if recipeType.None? {
        return Threw(TypeNotSet);
      }
      if MaxIngredients(recipeType.value) <= |ingredientList| {
        return Threw(Invalid("Too many ingredients"));
      }
      if recipeType.value == CraftingShaped {
        if pattern.None? {
          return Threw(Invalid("Pattern is not set"));
        }
        if ing.sign.None? {
          return Threw(Invalid("Ingredient sign is not set"));
        }
        if !PatternContains(pattern.value, ing.sign.value) {
          return Threw(Invalid("Pattern does not contain the ingredient sign"));
        }
      }
      ingredientList := ingredientList + [ing];
      return Done;
    }

    /** addIngredient(Ingredient...): the ingredients added before one throws stay added. */
    method AddIngredients(ings: seq<Ingredient>) returns (o: Outcome)
      requires Valid()
      modifies this
      ensures AddAllStep(old(State()), ings) == Run(State(), o)
      ensures result == old(result) && priority == old(priority)
      ensures Valid()
    {
      var i := 0;
      while i < |ings|
        invariant 0 <= i <= |ings|
        invariant Valid()
        invariant AddAllStep(old(State()), ings) == AddAllStep(State(), ings[i..])
        invariant result == old(result) && priority == old(priority)
      {
        assert ings[i..][0] == ings[i] && ings[i..][1..] == ings[i + 1..];
        o := AddIngredient(ings[i]);
        if o.Threw? {
          return;
        }
        i := i + 1;
      }
      return Done;
    }

    /** addIngredient(tag, sign); the one-argument form passes `sign := None`. */
    method AddTag(tag: Tag, sign: Option<char> := None) returns (o: Outcome)
      requires Valid()
      modifies this
      ensures Applied(old(State()), AddTagStep(old(State()), tag, sign), o, State())
      ensures result == old(result) && priority == old(priority)
      ensures Valid()
    {
      o := AddIngredient(TagIngredient(tag, sign));
    }

    /** addIngredient(item, sign, strict), with the (item, strict) and (item, sign) forms as defaults. */
    method AddItem(item: Item, sign: Option<char> := None, strict: bool := false) returns (o: Outcome)
      requires Valid()
      modifies this
      ensures Applied(old(State()), AddItemStep(old(State()), item, sign, strict), o, State())
      ensures result == old(result) && priority == old(priority)
      ensures Valid()
    {
      var ing := if strict then StrictItemStackIngredient(item, sign) else ItemStackIngredient(item, sign);
      o := AddIngredient(ing);
    }

    /** addIngredient(item) */
    method AddItemWithoutSign(item: Item) returns (o: Outcome)
      requires Valid()
      modifies this
      ensures Applied(old(State()), AddItemWithoutSignStep(old(State()), item), o, State())
      ensures result == old(result) && priority == old(priority)
      ensures Valid()
    {
      if recipeType == Some(CraftingShaped) {
        return Threw(NoSignOnShaped);
      }
      o := AddItem(item, None, false);
    }

    /** addIngredient(material, sign) */
    method AddMaterial(m: Material, sign: Option<char>) returns (o: Outcome)
      requires Valid()
      modifies this
      ensures Applied(old(State()), AddMaterialStep(old(State()), m, sign), o, State())
      ensures result == old(result) && priority == old(priority)
      ensures Valid()
    {
      o := AddIngredient(MaterialIngredient(m, sign));
    }

    /** addIngredient(material) */
    method AddMaterialWithoutSign(m: Material) returns (o: Outcome)
      requires Valid()
      modifies this
      ensures Applied(old(State()), AddMaterialWithoutSignStep(old(State()), m), o, State())
      ensures result == old(result) && priority == old(priority)
      ensures Valid()
    {
      if recipeType == Some(CraftingShaped) {
        return Threw(NoSignOnShaped);
      }
      o := AddMaterial(m, None);
    }

    method SetGroup(g: string) returns (o: Outcome)
      requires Valid()
      modifies this
      ensures Applied(old(State()), SetGroupStep(old(State()), g), o, State())
      ensures result == old(result) && priority == old(priority)
      ensures Valid()
    {
      if recipeType.None? {
        return Threw(TypeNotSet);
      }
      group := g;
      return Done;
    }

    method SetCategory(c: string) returns (o: Outcome)
      requires Valid()
      modifies this
      ensures Applied(old(State()), SetCategoryStep(old(State()), c), o, State())
      ensures result == old(result) && priority == old(priority)
      ensures Valid()
    {
      if recipeType.None? {
        return Threw(TypeNotSet);
      }
      if recipeType.value == StoneCutting {
        return Threw(Invalid("Category is not valid for STONE_CUTTING type"));
      }
      category := c;
      return Done;
    }

    method SetPattern(p: seq<string>) returns (o: Outcome)
      requires Valid()
      modifies this
      ensures Applied(old(State()), SetPatternStep(old(State()), p), o, State())
      ensures result == old(result) && priority == old(priority)
      ensures Valid()
    {
      if recipeType.None? {
        return Threw(TypeNotSet);
      }
      if recipeType.value != CraftingShaped {
        return Threw(Invalid("Recipe type is not a shaped recipe"));
      }
      if |p| > 3 {
        return Threw(Invalid("Pattern is too long"));
      }
      if !AreLengthsValid(p) {
        return Threw(Invalid("Pattern is not valid"));
      }
      AreLengthsValidIffRectangular(p);
      pattern := Some(p);
      return Done;
    }

    method SetCookingTime(time: int) returns (o: Outcome)
      requires Valid()
      modifies this
      ensures Applied(old(State()), SetCookingTimeStep(old(State()), time), o, State())
      ensures result == old(result) && priority == old(priority)
      ensures Valid()
    {
      if recipeType.None? {
        return Threw(TypeNotSet);
      }
      if !IsSmelting(recipeType.value) {
        return Threw(Invalid("Recipe type is not a smelting recipe"));
      }
      cookingTime := time;
      return Done;
    }

    method SetExperience(e: real) returns (o: Outcome)
      requires Valid()
      modifies this
      ensures Applied(old(State()), SetExperienceStep(old(State()), e), o, State())
      ensures result == old(result) && priority == old(priority)
      ensures Valid()
    {
      if recipeType.None? {
        return Threw(TypeNotSet);
      }
      if !IsSmelting(recipeType.value) {
        return Threw(Invalid("Recipe type is not a smelting recipe"));
      }
      experience := e;
      return Done;
    }

    /** setPriority: needs the type; a higher priority is registered first. */
    method SetPriority(p: int) returns (o: Outcome)
      requires Valid()
      modifies this
      ensures recipeType.None? ==> o == Threw(TypeNotSet) && priority == old(priority)
      ensures recipeType.Some? ==> o == Done && priority == p
      ensures State() == old(State()) && result == old(result)
      ensures Valid()
    {
      if recipeType.None? {
        return Threw(TypeNotSet);
      }
      priority := p;
      return Done;
    }

    function GetType(): (t: Option<RecipeType>)
      reads this
      ensures t == State().recipeType
    {
      recipeType
    }

    method Build() returns (r: Result<ItemRecipe>)
      requires Valid()
      ensures r == BuildRecipe(State(), result, priority)
      ensures r != Err(Invalid("Type is not set")) && r != Err(Invalid("Pattern is empty"))
    {
      BuildNeverReportsUnreachableErrors(State(), result, priority);
      if name.None? {
        return Err(Invalid("Name is not set"));
      }
      if result.None? {
        return Err(Invalid("Result is not set"));
      }
      if recipeType.None? {
        return Err(Invalid("Type is not set"));
      }
      r := GetItemRecipe(ingredientList, recipeType.value, pattern, cookingTime, name.value, group,
                         category, Descriptor(result.value), amount, experience, priority);
    }
  }
}
