/**
 * The recipe builder of the earlier revision (impl/RecipeBuilder): the
 * result is kept as an item stack, there is no priority, and build() makes
 * getItemRecipe's checks itself.
 */
module LegacyBuilder {
  import opened Wrappers
  import opened Items
  import opened Ingredients
  import opened RecipeTypes
  import opened ItemRecipes
  import opened RecipeDraft
  import Builder

  /** build(): the checks in the order this revision makes them, then the record (priority 0). */
  function LegacyBuild(d: Draft, result: Option<Item>): (r: Result<ItemRecipe>)
    ensures r.Ok? <==> d.name.Some? && result.Some? && d.recipeType.Some? &&
                       Buildable(d.ingredients, d.recipeType.value, d.pattern, d.cookingTime)
    ensures r.Ok? ==> r.value.result == Stack(result.value) && r.value.priority == 0
    ensures r.Err? ==> r.error.Invalid?
  {
    if d.name.None? then Err(Invalid("Name is not set"))
    else if result.None? then Err(Invalid("Result is not set"))
    else if d.recipeType.None? then Err(Invalid("Type is not set"))
    else if |d.ingredients| == 0 then Err(Invalid("Ingredients are not set"))
    else if d.recipeType.value == CraftingShaped && d.pattern.None? then Err(Invalid("Pattern is not set"))
    else if d.recipeType.value == CraftingShaped && |d.pattern.value| == 0 then Err(Invalid("Pattern is empty"))
    else if IsSmelting(d.recipeType.value) && d.cookingTime == 0 then Err(Invalid("Cooking time is not set"))
    else Ok(ItemRecipe(d.name.value, d.group, d.category, d.recipeType.value, Stack(result.value), d.amount,
                       d.ingredients, d.pattern, d.cookingTime, d.experience, 0))
  }

  /**
   * The two revisions build the same recipe from the same builder state, with
   * the same exception, apart from how the result is held and the priority
   * (none here, so 0 there).
   */
  lemma LegacyAgreesWithCurrent(d: Draft, result: Option<Item>, text: string)
    ensures var current := Builder.BuildRecipe(d, if result.Some? then Some(text) else None, 0);
            LegacyBuild(d, result) == (if current.Ok? then Ok(current.value.(result := Stack(result.value))) else current)
  {
  }

  class RecipeBuilder {
    var name: Option<string>
    var result: Option<Item>
    var amount: int
    var recipeType: Option<RecipeType>
    var ingredientList: seq<Ingredient>
    var group: string
    var category: string
    var pattern: Option<seq<string>>
    var cookingTime: int
    var experience: real

    /** The fields both builders share. */
    function State(): Draft
      reads this
    {
      Draft(ingredientList, name, amount, recipeType, group, category, pattern, cookingTime, experience)
    }

    ghost predicate Valid()
      reads this
    {
      RecipeDraft.Valid(State())
    }

    constructor ()
      ensures State() == Initial && result.None?
      ensures Valid()
    {
      name := None;
      result := None;
      amount := 1;
      recipeType := None;
      ingredientList := [];
      group := "";
      category := "";
      pattern := None;
      cookingTime := 0;
      experience := 0.0;
    }

    method SetName(n: string) returns (o: Outcome)
      requires Valid()
      modifies this
      ensures Applied(old(State()), SetNameStep(old(State()), n), o, State())
      ensures result == old(result)
      ensures Valid()
    {
      if recipeType.None? {
        return Threw(TypeNotSet);
      }
      name := Some(n);
      return Done;
    }

    method SetResult(item: Item) returns (o: Outcome)
      requires Valid()
      modifies this
      ensures recipeType.None? ==> o == Threw(TypeNotSet) && result == old(result)
      ensures recipeType.Some? ==> o == Done && result == Some(item)
      ensures State() == old(State())
      ensures Valid()
    {
      if recipeType.None? {
        return Threw(TypeNotSet);
      }
      result := Some(item);
      return Done;
    }

    method SetAmount(a: int)
      requires Valid()
      modifies this
      ensures State() == SetAmountStep(old(State()), a) && result == old(result)
      ensures Valid()
    {
      amount := a;
    }

    method SetType(t: RecipeType)
      requires Valid()
      modifies this
      ensures State() == SetTypeStep(old(State()), t) && result == old(result)
      ensures Valid()
    {
      recipeType := Some(t);
    }

    method AddIngredient(ing: Ingredient) returns (o: Outcome)
      requires Valid()
      modifies this
      ensures Applied(old(State()), AddIngredientStep(old(State()), ing), o, State())
      ensures result == old(result)
      ensures Valid()
    {
      if recipeType.None? {
        return Threw(TypeNotSet);
      }
      if MaxIngredients(recipeType.value) <= |ingredientList| {
        return Threw(Invalid("Too many ingredients"));
      }
      if recipeType.value == CraftingShaped {
        if pattern.None? {
          return Threw(Invalid("Pattern is not set"));
        }
        if ing.sign.None? {
          return Threw(Invalid("Ingredient sign is not set"));
        }
        if !PatternContains(pattern.value, ing.sign.value) {
          return Threw(Invalid("Pattern does not contain the ingredient sign"));
        }
      }
      ingredientList := ingredientList + [ing];
      return Done;
    }

    /** addIngredient(Ingredient...) */
    method AddIngredients(ings: seq<Ingredient>) returns (o: Outcome)
      requires Valid()
      modifies this
      ensures AddAllStep(old(State()), ings) == Run(State(), o)
      ensures result == old(result)
      ensures Valid()
    {
      var i := 0;
      while i < |ings|
        invariant 0 <= i <= |ings|
        invariant Valid()
        invariant AddAllStep(old(State()), ings) == AddAllStep(State(), ings[i..])
        invariant result == old(result)
      {
        assert ings[i..][0] == ings[i] && ings[i..][1..] == ings[i + 1..];
        o := AddIngredient(ings[i]);
        if o.Threw? {
          return;
        }
        i := i + 1;
      }
      return Done;
    }

    /** addIngredient(tag, sign); the one-argument form passes `sign := None`. */
    method AddTag(tag: Tag, sign: Option<char> := None) returns (o: Outcome)
      requires Valid()
      modifies this
      ensures Applied(old(State()), AddTagStep(old(State()), tag, sign), o, State())
      ensures result == old(result)
      ensures Valid()
    {
      o := AddIngredient(TagIngredient(tag, sign));
    }

    /** addIngredient(item, sign, strict), with the (item, strict) and (item, sign) forms as defaults. */
    method AddItem(item: Item, sign: Option<char> := None, strict: bool := false) returns (o: Outcome)
      requires Valid()
      modifies this
      ensures Applied(old(State()), AddItemStep(old(State()), item, sign, strict), o, State())
      ensures result == old(result)
      ensures Valid()
    {
      var ing := if strict then StrictItemStackIngredient(item, sign) else ItemStackIngredient(item, sign);
      o := AddIngredient(ing);
    }

    /** addIngredient(item) */
    method AddItemWithoutSign(item: Item) returns (o: Outcome)
      requires Valid()
      modifies this
      ensures Applied(old(State()), AddItemWithoutSignStep(old(State()), item), o, State())
      ensures result == old(result)
      ensures Valid()
    {
      if recipeType == Some(CraftingShaped) {
        return Threw(NoSignOnShaped);
      }
      o := AddItem(item, None, false);
    }

    /** addIngredient(material, sign) */
    method AddMaterial(m: Material, sign: Option<char>) returns (o: Outcome)
      requires Valid()
      modifies this
      ensures Applied(old(State()), AddMaterialStep(old(State()), m, sign), o, State())
      ensures result == old(result)
      ensures Valid()
    {
      o := AddIngredient(MaterialIngredient(m, sign));
    }

    /** addIngredient(material) */
    method AddMaterialWithoutSign(m: Material) returns (o: Outcome)
      requires Valid()
      modifies this
      ensures Applied(old(State()), AddMaterialWithoutSignStep(old(State()), m), o, State())
      ensures result == old(result)
      ensures Valid()
    {
      if recipeType == Some(CraftingShaped) {
        return Threw(NoSignOnShaped);
      }
      o := AddMaterial(m, None);
    }

    method SetGroup(g: string) returns (o: Outcome)
      requires Valid()
      modifies this
      ensures Applied(old(State()), SetGroupStep(old(State()), g), o, State())
      ensures result == old(result)
      ensures Valid()
    {
      if recipeType.None? {
        return Threw(TypeNotSet);
      }
      group := g;
      return Done;
    }

    method SetCategory(c: string) returns (o: Outcome)
      requires Valid()
      modifies this
      ensures Applied(old(State()), SetCategoryStep(old(State()), c), o, State())
      ensures result == old(result)
      ensures Valid()
    {
      if recipeType.None? {
        return Threw(TypeNotSet);
      }
      if recipeType.value == StoneCutting {
        return Threw(Invalid("Category is not valid for STONE_CUTTING type"));
      }
      category := c;
      return Done;
    }

    method SetPattern(p: seq<string>) returns (o: Outcome)
      requires Valid()
      modifies this
      ensures Applied(old(State()), SetPatternStep(old(State()), p), o, State())
      ensures result == old(result)
      ensures Valid()
    {
      if recipeType.None? {
        return Threw(TypeNotSet);
      }
      if recipeType.value != CraftingShaped {
        return Threw(Invalid("Recipe type is not a shaped recipe"));
      }
      if |p| > 3 {
        return Threw(Invalid("Pattern is too long"));
      }
      if !AreLengthsValid(p) {
        return Threw(Invalid("Pattern is not valid"));
      }
      AreLengthsValidIffRectangular(p);
      pattern := Some(p);
      return Done;
    }

    method SetCookingTime(time: int) returns (o: Outcome)
      requires Valid()
      modifies this
      ensures Applied(old(State()), SetCookingTimeStep(old(State()), time), o, State())
      ensures result == old(result)
      ensures Valid()
    {
      if recipeType.None? {
        return Threw(TypeNotSet);
      }
      if !IsSmelting(recipeType.value) {
        return Threw(Invalid("Recipe type is not a smelting recipe"));
      }
      cookingTime := time;
      return Done;
    }

    method SetExperience(e: real) returns (o: Outcome)
      requires Valid()
      modifies this
      ensures Applied(old(State()), SetExperienceStep(old(State()), e), o, State())
      ensures result == old(result)
      ensures Valid()
    {
      if recipeType.None? {
        return Threw(TypeNotSet);
      }
      if !IsSmelting(recipeType.value) {
        return Threw(Invalid("Recipe type is not a smelting recipe"));
      }
      experience := e;
      return Done;
    }

    function GetType(): (t: Option<RecipeType>)
      reads this
      ensures t == State().recipeType
    {
      recipeType
    }

    method Build() returns (r: Result<ItemRecipe>)
      requires Valid()
      ensures r == LegacyBuild(State(), result)
    {
      if name.None? {
        return Err(Invalid("Name is not set"));
      }
      if result.None? {
        return Err(Invalid("Result is not set"));
      }
      if recipeType.None? {
        return Err(Invalid("Type is not set"));
      }
      if |ingredientList| == 0 {
        return Err(Invalid("Ingredients are not set"));
      }
      if recipeType.value == CraftingShaped && pattern.None? {
        return Err(Invalid("Pattern is not set"));
      }
      if recipeType.value == CraftingShaped && |pattern.value| == 0 {
        return Err(Invalid("Pattern is empty"));
      }
      if IsSmelting(recipeType.value) && cookingTime == 0 {
        return Err(Invalid("Cooking time is not set"));
      }
      r := Ok(ItemRecipe(name.value, group, category, recipeType.value, Stack(result.value), amount,
                         ingredientList, pattern, cookingTime, experience, 0));
    }
  }

  // ------------------------------------------------ the test plugin's recipes

  /** A paper renamed "Dirt Magic", the complex ingredient of the test plugin. */
  const DirtMagic := Item("PAPER", 1, Some(Meta({}, None, None, Some("Dirt Magic"))))

  /** Shapeless: one dirt gives 64 diamonds. */
  method ExampleSimple() returns (r: Result<ItemRecipe>)
    ensures r.Ok? && r.value.recipeType == CraftingShapeless && r.value.amount == 64
    ensures r.Ok? && r.value.ingredients == [MaterialIngredient("DIRT", None)]
    ensures r.Ok? && r.value.result == Stack(Plain("DIAMOND")) && r.value.recipeName == "example-simple"
  {
    var b := new RecipeBuilder();
    b.SetType(CraftingShapeless);
    var step1 := b.SetName("example-simple");
    assert step1.Done?;
    var step2 := b.SetResult(Plain("DIAMOND"));
    assert step2.Done?;
    b.SetAmount(64);
    var step3 := b.AddMaterialWithoutSign("DIRT");
    assert step3.Done?;
    r := b.Build();
  }

  const RingPattern := ["DDD", "DID", "DDD"]

  /** The ring is a valid grid and holds both signs. */
  lemma RingPatternFacts()
    ensures AreLengthsValid(RingPattern) && Rectangular(RingPattern)
    ensures PatternContains(RingPattern, 'D') && PatternContains(RingPattern, 'I')
  {
    AreLengthsValidIffRectangular(RingPattern);
    assert RingPattern[0][0] == 'D' && RingPattern[1][1] == 'I';
  }

  /** Shaped: a ring of dirt ('D') around a diamond ('I'). */
  method ExampleShaped() returns (r: Result<ItemRecipe>)
    ensures r.Ok? && r.value.recipeType == CraftingShaped && r.value.pattern == Some(RingPattern)
    ensures r.Ok? && r.value.ingredients == [MaterialIngredient("DIRT", Some('D')), MaterialIngredient("DIAMOND", Some('I'))]
  {
    var b := new RecipeBuilder();
    b.SetType(CraftingShaped);
    var step1 := b.SetName("example-shaped");
    assert step1.Done?;
    var step2 := b.SetResult(Plain("DIAMOND"));
    assert step2.Done?;
    b.SetAmount(64);
    RingPatternFacts();
    var step3 := b.SetPattern(RingPattern);
    assert step3.Done?;
    var step4 := b.AddMaterial("DIRT", Some('D'));
    assert step4.Done?;
    var step5 := b.AddMaterial("DIAMOND", Some('I'));
    assert step5.Done?;
    r := b.Build();
  }

  /** Shapeless with a loose item ingredient: the renamed paper. */
  method ExampleComplex() returns (r: Result<ItemRecipe>)
    ensures r.Ok? && r.value.ingredients == [ItemStackIngredient(DirtMagic, None)]
  {
    var b := new RecipeBuilder();
    b.SetType(CraftingShapeless);
    var step1 := b.SetName("example-complex");
    assert step1.Done?;
    var step2 := b.SetResult(Plain("DIAMOND"));
    assert step2.Done?;
    b.SetAmount(64);
    var step3 := b.AddItemWithoutSign(DirtMagic);
    assert step3.Done?;
    r := b.Build();
  }

  /** A furnace recipe: it builds only because the cooking time is set (to 10). */
  method ExampleFurnace() returns (r: Result<ItemRecipe>)
    ensures r.Ok? && r.value.recipeType == Smelting && r.value.cookingTime == 10
    ensures r.Ok? && r.value.ingredients == [ItemStackIngredient(DirtMagic, None)]
  {
    var b := new RecipeBuilder();
    b.SetType(Smelting);
    var step1 := b.SetName("example-furnace");
    assert step1.Done?;
    var step2 := b.SetResult(Plain("DIAMOND"));
    assert step2.Done?;
    b.SetAmount(64);
    var step3 := b.AddItemWithoutSign(DirtMagic);
    assert step3.Done?;
    var step4 := b.SetCookingTime(10);
    assert step4.Done?;
    r := b.Build();
  }
}
