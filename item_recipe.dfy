/**
 * The ItemRecipe record, the validation that creates it (getItemRecipe),
 * the resolution of its result descriptor (toBukkitItemStack), its key, and
 * which of its fields reach the host's native recipe (toBukkitRecipe).
 */
module ItemRecipes {
  import opened Wrappers
  import opened JavaStrings
  import opened Items
  import opened Ingredients
  import opened RecipeTypes
  import opened Hooks
  import opened Util

  /**
   * The result field: a descriptor string in the current revision, an item
   * stack in the older builder and the configuration reader.
   */
  datatype ResultSpec = Descriptor(text: string) | Stack(item: Item)

  datatype ItemRecipe = ItemRecipe(
    recipeName: string,
    group: string,
    category: string,
    recipeType: RecipeType,
    result: ResultSpec,
    amount: int,
    ingredients: seq<Ingredient>,
    pattern: Option<seq<string>>,
    cookingTime: int,
    experience: real,
    priority: int)

  /** The validation getItemRecipe performs before it creates the record. */
  predicate Buildable(ingredients: seq<Ingredient>, t: RecipeType, pattern: Option<seq<string>>, cookingTime: int) {
    && |ingredients| > 0
    && (t == CraftingShaped ==> pattern.Some? && |pattern.value| > 0)
    && !(IsSmelting(t) && cookingTime == 0)
  }

  /**
   * Recipe.getItemRecipe: the checks in their order, then the record with
   * every argument passed through; the ingredient list is copied in order.
   */
  function GetItemRecipe(
    ingredients: seq<Ingredient>, t: RecipeType, pattern: Option<seq<string>>, cookingTime: int,
    name: string, group: string, category: string, result: ResultSpec, amount: int, experience: real,
    priority: int := 0): (r: Result<ItemRecipe>)
    ensures r.Ok? <==> Buildable(ingredients, t, pattern, cookingTime)
    ensures |ingredients| == 0 ==> r == Err(Invalid("Ingredients are not set"))
    ensures |ingredients| > 0 && t == CraftingShaped && pattern.None? ==> r == Err(Invalid("Pattern is not set"))
    ensures |ingredients| > 0 && t == CraftingShaped && pattern == Some([]) ==> r == Err(Invalid("Pattern is empty"))
    ensures |ingredients| > 0 && t != CraftingShaped && IsSmelting(t) && cookingTime == 0 ==>
              r == Err(Invalid("Cooking time is not set"))
    ensures r.Ok? ==> r.value.ingredients == ingredients && r.value.recipeType == t && r.value.pattern == pattern
    ensures r.Ok? ==> r.value.recipeName == name && r.value.result == result && r.value.amount == amount
    ensures r.Ok? ==> r.value.group == group && r.value.category == category && r.value.priority == priority
    ensures r.Ok? ==> r.value.cookingTime == cookingTime && r.value.experience == experience
  {
    if |ingredients| == 0 then Err(Invalid("Ingredients are not set"))
    else if t == CraftingShaped && pattern.None? then Err(Invalid("Pattern is not set"))
    else if t == CraftingShaped && |pattern.value| == 0 then Err(Invalid("Pattern is empty"))
    else if IsSmelting(t) && cookingTime == 0 then Err(Invalid("Cooking time is not set"))
    else Ok(ItemRecipe(name, group, category, t, result, amount, ingredients, pattern, cookingTime, experience, priority))
  }

  /** Only the cooking kinds check the cooking time, and only for exactly 0: a negative time passes. */
  lemma CookingTimeCheckedOnlyForZero(ingredients: seq<Ingredient>, t: RecipeType, cookingTime: int)
    requires |ingredients| > 0 && t != CraftingShaped
    ensures Buildable(ingredients, t, None, cookingTime) <==> !IsSmelting(t) || cookingTime != 0
  {
  }

  /** getKey: the type's key for the recipe name, in the registered plugin's namespace. */
  function GetKey(plugin: Option<string>, r: ItemRecipe): (k: Result<NamespacedKey>)
    ensures k == NamespacedKeyOf(plugin, r.recipeType, r.recipeName)
  {
    NamespacedKeyOf(plugin, r.recipeType, r.recipeName)
  }

  /** The switch of toBukkitItemStack on a descriptor with at least two pieces. */
  function ResolvePrefixed(cat: Catalog, text: string, prefix: string, value: string): (r: Result<Item>)
    ensures prefix == "material" || prefix == "item" ==> r == (var m :- GetMaterial(cat, value); Ok(Plain(m)))
    ensures prefix == "base64" ==> r == DecodeItem(cat, value)
    ensures prefix !in {"material", "item", "base64"} && FindHook(cat.hooks, prefix).None? ==> r.Err? && r.error.Invalid?
    ensures prefix !in {"material", "item", "base64"} && FindHook(cat.hooks, prefix).Some? ==>
              r == GetItemStack(FindHook(cat.hooks, prefix).value, value)
  {
    match prefix
    case "material" => var m :- GetMaterial(cat, value); Ok(Plain(m))
    case "item" => var m :- GetMaterial(cat, value); Ok(Plain(m))
    case "base64" => DecodeItem(cat, value)
    case _ =>
      match FindHook(cat.hooks, prefix)
      case None => Err(Invalid("The result " + text + " isn't valid."))
      case Some(h) => GetItemStack(h, value)
  }

  /** The item a descriptor names, before its amount is set. */
  function ResolveResult(cat: Catalog, result: ResultSpec): Result<Item> {
    match result
    case Stack(item) => Ok(item)
    case Descriptor(text) =>
      var parts := SplitAll(text, ':');
      if |parts| == 1 then
        var m :- GetMaterial(cat, parts[0]);
        Ok(Plain(m))
      else if |parts| == 0 then Err(Crash("ArrayIndexOutOfBoundsException: Index 0 out of bounds for length 0"))
      else ResolvePrefixed(cat, text, parts[0], parts[1])
  }

  /**
   * toBukkitItemStack: the descriptor is split at every ':', resolved, and
   * the item's amount is then set to the recipe's amount.
   */
  function ToBukkitItemStack(cat: Catalog, r: ItemRecipe): (item: Result<Item>)
    ensures item.Ok? <==> ResolveResult(cat, r.result).Ok?
    ensures item.Ok? ==> item.value.amount == r.amount
    ensures item.Ok? ==> item.value == ResolveResult(cat, r.result).value.(amount := r.amount)
  {
    var base :- ResolveResult(cat, r.result);
    Ok(base.(amount := r.amount))
  }

  /** A descriptor without ':' is a material name: the result is one plain stack of it. */
  lemma BareResultIsMaterial(cat: Catalog, r: ItemRecipe)
    requires r.result.Descriptor? && ':' !in r.result.text
    ensures ToBukkitItemStack(cat, r).Ok? <==> Upper(r.result.text) in cat.materials
    ensures ToBukkitItemStack(cat, r).Ok? ==>
              ToBukkitItemStack(cat, r).value == Item(Upper(r.result.text), r.amount, None)
  {
  }

  /** "material:X" and "item:X" name the same plain stack. */
  lemma MaterialAndItemPrefixesAgree(cat: Catalog, r: ItemRecipe, x: string)
    requires ':' !in x && x != ""
    ensures ToBukkitItemStack(cat, r.(result := Descriptor("material:" + x))) ==
            ToBukkitItemStack(cat, r.(result := Descriptor("item:" + x)))
    ensures ToBukkitItemStack(cat, r.(result := Descriptor("item:" + x))).Ok? <==> Upper(x) in cat.materials
  {
    assert "material:" + x == "material" + [':'] + x;
    assert "item:" + x == "item" + [':'] + x;
    PrefixedResult(cat, "material", x);
    PrefixedResult(cat, "item", x);
  }

  /** "p:x", with no ':' in p or x, goes to the switch on p with the value x. */
  lemma PrefixedResult(cat: Catalog, p: string, x: string)
    requires ':' !in p && ':' !in x && x != ""
    ensures ResolveResult(cat, Descriptor(p + [':'] + x)) == ResolvePrefixed(cat, p + [':'] + x, p, x)
  {
    SplitAllPair(p, x, ':');
  }

  /**
   * A "base64:" descriptor resolves to the decoded item with the recipe's
   * amount; a base64 text cannot hold ':', so the value is split off whole.
   */
  lemma Base64Result(cat: Catalog, r: ItemRecipe, data: string)
    requires ':' !in data && data != ""
    ensures ToBukkitItemStack(cat, r.(result := Descriptor("base64:" + data))).Ok? <==> data in cat.serialized
    ensures data in cat.serialized ==>
              ToBukkitItemStack(cat, r.(result := Descriptor("base64:" + data))) == Ok(cat.serialized[data].(amount := r.amount))
  {
    assert "base64:" + data == "base64" + [':'] + data;
    PrefixedResult(cat, "base64", data);
  }

  /** An unknown prefix goes to the first enabled provider of that name, ignoring case. */
  lemma ProviderResult(cat: Catalog, r: ItemRecipe, prefix: string, id: string)
    requires ':' !in prefix && ':' !in id && id != ""
    requires prefix !in {"material", "item", "base64"}
    ensures FindHook(cat.hooks, prefix).None? ==> ToBukkitItemStack(cat, r.(result := Descriptor(prefix + ":" + id))).Err?
    ensures FindHook(cat.hooks, prefix).Some? && id in FindHook(cat.hooks, prefix).value.items ==>
              ToBukkitItemStack(cat, r.(result := Descriptor(prefix + ":" + id))) ==
              Ok(FindHook(cat.hooks, prefix).value.items[id].(amount := r.amount))
  {
    assert prefix + ":" + id == prefix + [':'] + id;
    SplitAllPair(prefix, id, ':');
  }

  /** The book categories the host knows. */
  const CraftingBookCategories: set<string> := {"BUILDING", "REDSTONE", "EQUIPMENT", "MISC"}
  const CookingBookCategories: set<string> := {"FOOD", "BLOCKS", "MISC"}

  /** What toBukkitRecipe hands to the native recipe, with the host's constructors left out. */
  datatype NativeRecipe = NativeRecipe(
    kind: RecipeType,
    key: NamespacedKey,
    result: Item,
    shape: seq<string>,
    signs: seq<char>,
    inputs: seq<Choice>,
    group: Option<string>,
    category: Option<string>,
    experience: real,
    cookingTime: int)

  /** `if (!group.isEmpty()) setGroup(group)` */
  function GroupOf(group: string): (g: Option<string>)
    ensures g.Some? <==> group != ""
    ensures g.Some? ==> g.value == group
  {
    if group == "" then None else Some(group)
  }

  /** `if (!category.isEmpty()) setCategory(XBookCategory.valueOf(category.toUpperCase()))` */
  function CategoryOf(category: string, known: set<string>): (c: Result<Option<string>>)
    ensures category == "" ==> c == Ok(None)
    ensures category != "" ==> (c.Ok? <==> Upper(category) in known)
    ensures c.Ok? && c.value.Some? ==> c.value.value == Upper(category) && c.value.value in known
  {
    if category == "" then Ok(None)
    else if Upper(category) in known then Ok(Some(Upper(category)))
    else Err(Invalid("No enum constant " + Upper(category)))
  }

  function Choices(ings: seq<Ingredient>): (cs: seq<Choice>)
    ensures |cs| == |ings|
    ensures forall i :: 0 <= i < |ings| ==> cs[i] == ChoiceOf(ings[i])
  {
    if ings == [] then [] else [ChoiceOf(ings[0])] + Choices(ings[1..])
  }

  /** `setIngredient(ingredient.sign(), ...)` unboxes each sign; a null one throws. */
  function Signs(ings: seq<Ingredient>): (r: Result<seq<char>>)
    ensures r.Ok? <==> forall i :: 0 <= i < |ings| ==> ings[i].sign.Some?
    ensures r.Ok? ==> |r.value| == |ings| && forall i :: 0 <= i < |ings| ==> r.value[i] == ings[i].sign.value
  {
    if ings == [] then Ok([])
    else if ings[0].sign.None? then Err(Crash("NullPointerException: null sign"))
    else
      var rest :- Signs(ings[1..]);
      Ok([ings[0].sign.value] + rest)
  }

  /** The kind-by-kind selection of toBukkitRecipe(key, result). */
  function ToNative(r: ItemRecipe, key: NamespacedKey, result: Item): (n: Result<NativeRecipe>)
    ensures n.Ok? ==> n.value.kind == r.recipeType && n.value.key == key && n.value.result == result
    ensures n.Ok? && (IsSmelting(r.recipeType) || r.recipeType == StoneCutting) ==>
              |r.ingredients| >= 1 && n.value.inputs == [ChoiceOf(r.ingredients[0])]
    ensures n.Ok? && r.recipeType == SmithingTransform ==>
              |r.ingredients| >= 3 && n.value.inputs == [ChoiceOf(r.ingredients[0]), ChoiceOf(r.ingredients[1]), ChoiceOf(r.ingredients[2])]
    ensures n.Ok? && (r.recipeType == CraftingShaped || r.recipeType == CraftingShapeless) ==>
              n.value.inputs == Choices(r.ingredients)
    ensures n.Ok? && r.recipeType == CraftingShaped ==> Some(n.value.shape) == r.pattern && |n.value.signs| == |r.ingredients|
    ensures n.Ok? && r.recipeType != SmithingTransform ==> n.value.group == GroupOf(r.group)
    ensures n.Ok? && (r.recipeType == StoneCutting || r.recipeType == SmithingTransform) ==> n.value.category == None
    ensures r.recipeType == SmithingTransform ==> (n.Ok? <==> |r.ingredients| >= 3)
    ensures (IsSmelting(r.recipeType) || r.recipeType == StoneCutting) && |r.ingredients| == 0 ==> n.Err?
    ensures n.Ok? && IsSmelting(r.recipeType) ==>
              n.value.experience == r.experience && n.value.cookingTime == r.cookingTime
    ensures r.recipeType == CraftingShaped ==>
              (n.Ok? <==> r.pattern.Some? && Signs(r.ingredients).Ok? && CategoryOf(r.category, CraftingBookCategories).Ok?)
    ensures n.Ok? && r.recipeType == CraftingShaped ==>
              n.value.signs == Signs(r.ingredients).value &&
              CategoryOf(r.category, CraftingBookCategories) == Ok(n.value.category)
    ensures r.recipeType == CraftingShapeless ==>
              (n.Ok? <==> CategoryOf(r.category, CraftingBookCategories).Ok?) &&
              (n.Ok? ==> CategoryOf(r.category, CraftingBookCategories) == Ok(n.value.category))
    ensures IsSmelting(r.recipeType) ==>
              (n.Ok? <==> |r.ingredients| >= 1 && CategoryOf(r.category, CookingBookCategories).Ok?) &&
              (n.Ok? ==> CategoryOf(r.category, CookingBookCategories) == Ok(n.value.category))
    ensures r.recipeType == StoneCutting ==> (n.Ok? <==> |r.ingredients| >= 1)
  {
    match r.recipeType
    case CraftingShaped =>
      if r.pattern.None? then Err(Invalid("Must provide a shape"))
      else
        var signs :- Signs(r.ingredients);
        var category :- CategoryOf(r.category, CraftingBookCategories);
        Ok(NativeRecipe(r.recipeType, key, result, r.pattern.value, signs, Choices(r.ingredients),
                        GroupOf(r.group), category, 0.0, 0))
    case CraftingShapeless =>
      var category :- CategoryOf(r.category, CraftingBookCategories);
      Ok(NativeRecipe(r.recipeType, key, result, [], [], Choices(r.ingredients), GroupOf(r.group), category, 0.0, 0))
    case StoneCutting =>
      if |r.ingredients| == 0 then Err(Crash("ArrayIndexOutOfBoundsException: Index 0 out of bounds for length 0"))
      else Ok(NativeRecipe(r.recipeType, key, result, [], [], [ChoiceOf(r.ingredients[0])], GroupOf(r.group), None, 0.0, 0))
    case SmithingTransform =>
      if |r.ingredients| < 3 then Err(Crash("ArrayIndexOutOfBoundsException"))
      else Ok(NativeRecipe(r.recipeType, key, result, [], [],
                           [ChoiceOf(r.ingredients[0]), ChoiceOf(r.ingredients[1]), ChoiceOf(r.ingredients[2])],
                           None, None, 0.0, 0))
    case _ =>
      if |r.ingredients| == 0 then Err(Crash("ArrayIndexOutOfBoundsException: Index 0 out of bounds for length 0"))
      else
        var category :- CategoryOf(r.category, CookingBookCategories);
        Ok(NativeRecipe(r.recipeType, key, result, [], [], [ChoiceOf(r.ingredients[0])], GroupOf(r.group), category,
                        r.experience, r.cookingTime))
  }

  /** The single-ingredient kinds ignore every ingredient after the first, smithing every one after the third. */
  lemma ExtraIngredientsIgnored(r: ItemRecipe, key: NamespacedKey, result: Item)
    ensures (IsSmelting(r.recipeType) || r.recipeType == StoneCutting) && |r.ingredients| >= 1 ==>
              ToNative(r, key, result) == ToNative(r.(ingredients := r.ingredients[..1]), key, result)
    ensures r.recipeType == SmithingTransform && |r.ingredients| >= 3 ==>
              ToNative(r, key, result) == ToNative(r.(ingredients := r.ingredients[..3]), key, result)
  {
  }

  /** A shaped recipe with an ingredient lacking a sign cannot be converted. */
  lemma ShapedNeedsSigns(r: ItemRecipe, key: NamespacedKey, result: Item, i: nat)
    requires r.recipeType == CraftingShaped && i < |r.ingredients| && r.ingredients[i].sign.None?
    ensures ToNative(r, key, result).Err?
  {
  }

  /** toBukkitRecipe(): the key, then the result resolved with no player, then the selection. */
  function ToBukkitRecipe(cat: Catalog, plugin: Option<string>, r: ItemRecipe): (n: Result<NativeRecipe>)
    ensures n.Ok? ==> GetKey(plugin, r) == Ok(n.value.key)
    ensures n.Ok? ==> ToBukkitItemStack(cat, r) == Ok(n.value.result) && n.value.result.amount == r.amount
    ensures plugin.None? ==> n.Err?
  {
    var result :- ToBukkitItemStack(cat, r);
    var key :- GetKey(plugin, r);
    ToNative(r, key, result)
  }
}
