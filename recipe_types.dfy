/**
 * The RecipeType enumeration: each kind's ingredient limit, the "smelting"
 * kinds, and the key under which a recipe is registered.
 */
module RecipeTypes {
  import opened Wrappers
  import opened JavaStrings

  datatype RecipeType =
    | CraftingShaped
    | CraftingShapeless
    | Blasting
    | CampfireCooking
    | Smoking
    | StoneCutting
    | Smelting
    | SmithingTransform

  /** Enum.name() */
  function Name(t: RecipeType): string {
    match t
    case CraftingShaped => "CRAFTING_SHAPED"
    case CraftingShapeless => "CRAFTING_SHAPELESS"
    case Blasting => "BLASTING"
    case CampfireCooking => "CAMPFIRE_COOKING"
    case Smoking => "SMOKING"
    case StoneCutting => "STONE_CUTTING"
    case Smelting => "SMELTING"
    case SmithingTransform => "SMITHING_TRANSFORM"
  }

  /** RecipeType.valueOf: the constant with exactly this name, or an exception. */
  function ValueOf(s: string): (r: Option<RecipeType>)
    ensures r.Some? ==> Name(r.value) == s
  {
    if s == "CRAFTING_SHAPED" then Some(CraftingShaped)
    else if s == "CRAFTING_SHAPELESS" then Some(CraftingShapeless)
    else if s == "BLASTING" then Some(Blasting)
    else if s == "CAMPFIRE_COOKING" then Some(CampfireCooking)
    else if s == "SMOKING" then Some(Smoking)
    else if s == "STONE_CUTTING" then Some(StoneCutting)
    else if s == "SMELTING" then Some(Smelting)
    else if s == "SMITHING_TRANSFORM" then Some(SmithingTransform)
    else None
  }

  /** valueOf(name()) gives the constant back, and only names of constants are accepted. */
  lemma ValueOfName(t: RecipeType)
    ensures ValueOf(Name(t)) == Some(t)
  {
  }

  lemma ValueOfOnlyNames(s: string)
    ensures ValueOf(s).Some? <==> exists u :: Name(u) == s
  {
    if exists u :: Name(u) == s {
      var u :| Name(u) == s;
      ValueOfName(u);
    }
  }

  /** getMaxIngredients: the value each constant is declared with. */
  function MaxIngredients(t: RecipeType): nat {
    match t
    case CraftingShaped => 9
    case CraftingShapeless => 9
    case SmithingTransform => 3
    case _ => 1
  }

  /** smeltingRecipes() */
  const SmeltingRecipes: seq<RecipeType> := [CampfireCooking, Blasting, Smoking, Smelting]

  predicate IsSmelting(t: RecipeType) {
    t in SmeltingRecipes
  }

  /** The ingredient limits: 9 for crafting, 3 for smithing, 1 for the cooking kinds and stone cutting. */
  lemma MaxIngredientsTable(t: RecipeType)
    ensures MaxIngredients(t) == 9 <==> t == CraftingShaped || t == CraftingShapeless
    ensures MaxIngredients(t) == 3 <==> t == SmithingTransform
    ensures MaxIngredients(t) == 1 <==> IsSmelting(t) || t == StoneCutting
  {
  }

  /** The smelting kinds are the four that cook; stone cutting, smithing and crafting are not among them. */
  lemma SmeltingKinds(t: RecipeType)
    ensures IsSmelting(t) <==> t in {CampfireCooking, Blasting, Smoking, Smelting}
  {
  }

  /** NamespacedKey: a namespace (the registering plugin) and a key. */
  datatype NamespacedKey = NamespacedKey(namespace: string, key: string)

  /**
   * getNamespacedKey: lowercase(type name) + "_" + recipe name, in the
   * plugin's namespace. The host's NamespacedKey lower-cases both the
   * namespace and the key text, so the recipe name ends up lower-cased too.
   */
  function KeyFor(namespace: string, t: RecipeType, name: string): NamespacedKey {
    NamespacedKey(Lower(namespace), Lower(Name(t)) + "_" + Lower(name))
  }

  /** Reads the kind back from the first characters of a key made by KeyFor. */
  function KindOfKey(k: string): Option<RecipeType> {
    if |k| < 3 then None
    else if k[0] == 'b' then Some(Blasting)
    else if k[0] == 'c' then
      if k[1] == 'a' then Some(CampfireCooking)
      else if |k| > 14 && k[14] == 'l' then Some(CraftingShapeless)
      else Some(CraftingShaped)
    else if k[0] == 's' then
      if k[1] == 't' then Some(StoneCutting)
      else if k[2] == 'o' then Some(Smoking)
      else if k[2] == 'e' then Some(Smelting)
      else Some(SmithingTransform)
    else None
  }

  lemma KindOfKeyFor(t: RecipeType, name: string)
    ensures KindOfKey(Lower(Name(t)) + "_" + name) == Some(t)
  {
    var l := Lower(Name(t));
    var k := l + "_" + name;
    assert |l| >= 7 && k[0] == l[0] && k[1] == l[1] && k[2] == l[2];
    match t
    case CraftingShaped => assert l[0] == 'c' && l[1] == 'r' && k[14] == l[14] == 'd';
    case CraftingShapeless => assert l[0] == 'c' && l[1] == 'r' && k[14] == l[14] == 'l';
    case Blasting => assert l[0] == 'b';
    case CampfireCooking => assert l[0] == 'c' && l[1] == 'a';
    case Smoking => assert l[0] == 's' && l[1] == 'm' && l[2] == 'o';
    case StoneCutting => assert l[0] == 's' && l[1] == 't';
    case Smelting => assert l[0] == 's' && l[1] == 'm' && l[2] == 'e';
    case SmithingTransform => assert l[0] == 's' && l[1] == 'm' && l[2] == 'i';
  }

  /** Two (kind, name) pairs share a key in one namespace exactly when the kinds agree and the names agree up to case. */
  lemma {:induction false} KeyForInjective(namespace: string, t1: RecipeType, n1: string, t2: RecipeType, n2: string)
    ensures KeyFor(namespace, t1, n1) == KeyFor(namespace, t2, n2) <==> t1 == t2 && Lower(n1) == Lower(n2)
  {
    if KeyFor(namespace, t1, n1) == KeyFor(namespace, t2, n2) {
      KindOfKeyFor(t1, Lower(n1));
      KindOfKeyFor(t2, Lower(n2));
      var k := Lower(Name(t1)) + "_" + Lower(n1);
      assert Lower(n1) == k[|Name(t1)| + 1..];
    }
  }

  /** getNamespacedKey before any plugin is registered passes a null plugin to NamespacedKey. */
  function NamespacedKeyOf(plugin: Option<string>, t: RecipeType, key: string): (r: Result<NamespacedKey>)
    ensures r.Ok? <==> plugin.Some?
    ensures r.Ok? ==> r.value.namespace == Lower(plugin.value)
    ensures r.Ok? ==> r.value.key == Lower(Name(t)) + "_" + Lower(key)
  {
    if plugin.None? then Err(Crash("NamespacedKey with a null plugin"))
    else Ok(KeyFor(plugin.value, t, key))
  }

  /**
   * RecipeType's static `plugin`: the namespace every key is made in.
   * registerPlugin overwrites it, so the last call wins.
   */
  class PluginRegistration {
    var plugin: Option<string>

    constructor ()
      ensures plugin == None
    {
      plugin := None;
    }

    method RegisterPlugin(p: string)
      modifies this
      ensures plugin == Some(p)
    {
      plugin := Some(p);
    }

    /** getNamespacedKey, reading the registered plugin. */
    function GetNamespacedKey(t: RecipeType, key: string): (r: Result<NamespacedKey>)
      reads this
      ensures r == NamespacedKeyOf(plugin, t, key)
    {
      if plugin.None? then Err(Crash("NamespacedKey with a null plugin"))
      else Ok(KeyFor(plugin.value, t, key))
    }
  }
}
