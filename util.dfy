/**
 * Util: material lookup, tag lookup and `parseIngredient`, the parser for
 * strings such as "COBBLESTONE", "material:STONE", "tag:planks",
 * "item:DIAMOND", "base64:..." and "<provider>:<id>".
 */
module Util {
  import opened Wrappers
  import opened JavaStrings
  import opened Items
  import opened Ingredients
  import opened Hooks

  /**
   * What the parsers consult on the host: the Material constants, the block
   * and item tag registries, TagRegistry's map, the items that a base64
   * string decodes to (a string absent from the map fails to decode), and
   * the provider list.
   */
  datatype Catalog = Catalog(
    materials: set<Material>,
    blockTags: map<string, Tag>,
    itemTags: map<string, Tag>,
    tagMap: map<string, Tag>,
    serialized: map<string, Item>,
    hooks: seq<Hook>)

  /** getMaterial: Material.valueOf of the upper-cased name, or "The material ... isn't valid." */
  function GetMaterial(cat: Catalog, name: string): (r: Result<Material>)
    ensures r.Ok? <==> Upper(name) in cat.materials
    ensures r.Ok? ==> r.value == Upper(name)
    ensures r.Err? ==> r.error.Invalid?
  {
    if Upper(name) in cat.materials then Ok(Upper(name))
    else Err(Invalid("The material " + name + " isn't valid."))
  }

  /** getItemStack: the base64 decoding of an item, which fails for a string that is not one. */
  function DecodeItem(cat: Catalog, data: string): (r: Result<Item>)
    ensures r.Ok? <==> data in cat.serialized
    ensures r.Ok? ==> r.value == cat.serialized[data]
  {
    if data in cat.serialized then Ok(cat.serialized[data])
    else Err(Invalid("The itemstack " + data + " cannot be deserialized."))
  }

  /** getTag: the block tag of that key if there is one, else the item tag, else an exception. */
  function GetTag(cat: Catalog, data: string): (r: Result<Tag>)
    ensures r.Ok? <==> data in cat.blockTags || data in cat.itemTags
    ensures data in cat.blockTags ==> r == Ok(cat.blockTags[data])
    ensures data !in cat.blockTags && data in cat.itemTags ==> r == Ok(cat.itemTags[data])
    ensures r.Err? ==> r.error.Invalid?
  {
    if data in cat.blockTags then Ok(cat.blockTags[data])
    else if data in cat.itemTags then Ok(cat.itemTags[data])
    else Err(Invalid("The tag " + data + " isn't valid."))
  }

  /** The switch of parseIngredient on the part before the first ':'. */
  function ParsePrefixed(cat: Catalog, prefix: string, value: string, sign: Option<char>, strict: bool): (r: Result<Ingredient>)
    ensures r.Ok? ==> r.value.sign == sign
    ensures prefix == "material" ==> r == (var m :- GetMaterial(cat, value); Ok(MaterialIngredient(m, sign)))
    ensures prefix == "tag" ==> r == (var t :- GetTag(cat, value); Ok(TagIngredient(t, sign)))
    ensures prefix == "item" && r.Ok? ==>
              (r.value.ItemStackIngredient? || r.value.StrictItemStackIngredient?) &&
              r.value.item == Plain(Upper(value)) && (r.value.StrictItemStackIngredient? <==> strict)
    ensures prefix == "item" ==> (r.Ok? <==> Upper(value) in cat.materials)
    ensures prefix == "base64" ==> (r.Ok? <==> value in cat.serialized)
    ensures prefix == "base64" && r.Ok? ==>
              (r.value.ItemStackIngredient? || r.value.StrictItemStackIngredient?) &&
              r.value.item == cat.serialized[value] && (r.value.StrictItemStackIngredient? <==> strict)
    ensures prefix !in {"material", "tag", "item", "base64"} ==> r == HookIngredientFor(cat.hooks, prefix, value, sign)
  {
    match prefix
    case "material" =>
      var m :- GetMaterial(cat, value);
      Ok(MaterialIngredient(m, sign))
    case "tag" =>
      var t :- GetTag(cat, value);
      Ok(TagIngredient(t, sign))
    case "item" =>
      var m :- GetMaterial(cat, value);
      if strict then Ok(StrictItemStackIngredient(Plain(m), sign)) else Ok(ItemStackIngredient(Plain(m), sign))
    case "base64" =>
      var item :- DecodeItem(cat, value);
      if strict then Ok(StrictItemStackIngredient(item, sign)) else Ok(ItemStackIngredient(item, sign))
    case _ => HookIngredientFor(cat.hooks, prefix, value, sign)
  }

  /**
   * parseIngredient(itemString, sign, strict); the shorter overloads are the
   * defaults `sign := None` and `strict := false`.
   */
  function ParseIngredient(cat: Catalog, s: string, sign: Option<char> := None, strict: bool := false): (r: Result<Ingredient>)
    ensures r.Ok? ==> r.value.sign == sign
  {
    var data := SplitFirst(s, ':');
    if |data| == 1 then
      var m :- GetMaterial(cat, data[0]);
      Ok(MaterialIngredient(m, sign))
    else ParsePrefixed(cat, data[0], data[1], sign, strict)
  }

  /** A string without ':' is a material name, looked up upper-cased. */
  lemma ParseBareMaterial(cat: Catalog, s: string, sign: Option<char>, strict: bool)
    requires ':' !in s
    ensures ParseIngredient(cat, s, sign, strict).Ok? <==> Upper(s) in cat.materials
    ensures ParseIngredient(cat, s, sign, strict).Ok? ==>
              ParseIngredient(cat, s, sign, strict).value == MaterialIngredient(Upper(s), sign)
  {
  }

  /** Only the first ':' separates: the value after it is passed on whole, ':' included. */
  lemma ParseSplitsAtFirstColon(cat: Catalog, prefix: string, value: string, sign: Option<char>, strict: bool)
    requires ':' !in prefix
    ensures ParseIngredient(cat, prefix + ":" + value, sign, strict) == ParsePrefixed(cat, prefix, value, sign, strict)
  {
    SplitFirstAt(prefix, value, ':');
    assert prefix + ":" + value == prefix + [':'] + value;
  }

  /** "item:X" is a plain stack of material X, strict or not as asked. */
  lemma ParseItemPrefix(cat: Catalog, x: string, sign: Option<char>, strict: bool)
    requires ':' !in x
    ensures ParseIngredient(cat, "item:" + x, sign, strict) ==
            (var m :- GetMaterial(cat, x);
             Ok(if strict then StrictItemStackIngredient(Plain(m), sign) else ItemStackIngredient(Plain(m), sign)))
  {
    assert "item:" + x == "item" + ":" + x;
    ParseSplitsAtFirstColon(cat, "item", x, sign, strict);
  }

  /** The strict flag matters only for the "item" and "base64" prefixes. */
  lemma StrictOnlyForItems(cat: Catalog, s: string, sign: Option<char>)
    requires ':' !in s || SplitFirst(s, ':')[0] !in {"item", "base64"}
    ensures ParseIngredient(cat, s, sign, true) == ParseIngredient(cat, s, sign, false)
  {
  }

  /** The built-in prefixes are matched with their case: "MATERIAL:STONE" goes to the providers. */
  lemma BuiltInPrefixesAreCaseSensitive(cat: Catalog, value: string)
    ensures ParseIngredient(cat, "MATERIAL:" + value) == HookIngredientFor(cat.hooks, "MATERIAL", value, None)
  {
    assert ':' !in "MATERIAL";
    assert "MATERIAL:" + value == "MATERIAL" + ":" + value;
    ParseSplitsAtFirstColon(cat, "MATERIAL", value, None, false);
    assert "MATERIAL" !in {"material", "tag", "item", "base64"};
  }

  /** With no enabled provider of that name, an unknown prefix is an IllegalArgumentException. */
  lemma UnknownPrefixFails(cat: Catalog, prefix: string, value: string, sign: Option<char>, strict: bool)
    requires ':' !in prefix && prefix !in {"material", "tag", "item", "base64"}
    requires forall h :: h in cat.hooks ==> !Selectable(h, prefix)
    ensures ParseIngredient(cat, prefix + ":" + value, sign, strict).Err?
    ensures ParseIngredient(cat, prefix + ":" + value, sign, strict).error.Invalid?
  {
    ParseSplitsAtFirstColon(cat, prefix, value, sign, strict);
    assert forall j :: 0 <= j < |cat.hooks| ==> cat.hooks[j] in cat.hooks;
  }
}
