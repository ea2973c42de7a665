/**
 * RecipeConfiguration: a recipe read from a YAML file. The constructor
 * reads every field under a path prefix, parses the ingredient list and the
 * result, and fails on the first problem; the recipe is then built through
 * getItemRecipe. Unlike the builders it checks no ingredient limit and no
 * pattern sign.
 */
module Configuration {
  import opened Wrappers
  import opened JavaStrings
  import opened Items
  import opened Ingredients
  import opened RecipeTypes
  import opened Hooks
  import opened Util
  import opened Yaml
  import opened ItemRecipes
  import TagRegistry
  import opened Sequences

  /** The fields the constructor assigns. */
  datatype Configured = Configured(
    name: string,
    result: Item,
    amount: int,
    recipeType: RecipeType,
    group: string,
    category: string,
    cookingTime: int,
    experience: real,
    pattern: Option<seq<string>>,
    ingredients: seq<Ingredient>)

  /** A non-empty path that does not end in "." gets one; an empty path stays empty. */
  function NormalisePath(path: string): (p: string)
    ensures path == "" ==> p == ""
    ensures path != "" ==> EndsWith(p, ".") && StartsWith(p, path) && |p| <= |path| + 1
    ensures EndsWith(path, ".") ==> p == path
  {
    if !EndsWith(path, ".") && path != "" then path + "." else path
  }

  lemma NormalisePathIdempotent(path: string)
    ensures NormalisePath(NormalisePath(path)) == NormalisePath(path)
  {
  }

  /** checkGategory: the upper-cased name is a cooking or a crafting book category. */
  predicate CheckCategory(category: string) {
    Upper(category) in CookingBookCategories || Upper(category) in CraftingBookCategories
  }

  /** The names it accepts, ignoring case; the empty default is not among them. */
  lemma CheckCategoryNames(category: string)
    ensures CheckCategory(category) <==> Upper(category) in {"FOOD", "BLOCKS", "MISC", "BUILDING", "REDSTONE", "EQUIPMENT"}
    ensures !CheckCategory("")
  {
  }

  /** isStrict: the "strict" key is present and holds a boolean true; any other value fails the cast. */
  function IsStrict(entry: map<string, Value>): (r: Result<bool>)
    ensures "strict" !in entry ==> r == Ok(false)
    ensures "strict" in entry && entry["strict"].Bool? ==> r == Ok(entry["strict"].b)
    ensures "strict" in entry && !entry["strict"].Bool? ==> r.Err? && r.error.Crash?
  {
    if "strict" !in entry then Ok(false)
    else if entry["strict"].Bool? then Ok(entry["strict"].b)
    else Err(Crash("ClassCastException: strict is not a Boolean"))
  }

  /** The sign of an ingredient entry: absent, or the first character of its text. */
  function SignOf(entry: map<string, Value>): (r: Result<Option<char>>)
    ensures "sign" !in entry ==> r == Ok(None)
    ensures "sign" in entry && r.Ok? ==> r.value.Some?
    ensures "sign" in entry && entry["sign"].Str? && entry["sign"].s != "" ==> r == Ok(Some(entry["sign"].s[0]))
  {
    if "sign" !in entry then Ok(None)
    else
      var c :- FirstChar(entry["sign"]);
      Ok(Some(c))
  }

  /** The switch on the part before the first ':' of an ingredient; note "item" means a base64 item here. */
  function ConfigPrefixed(cat: Catalog, entry: map<string, Value>, prefix: string, value: string, sign: Option<char>): (r: Result<Ingredient>)
    ensures r.Ok? ==> r.value.sign == sign
    ensures prefix == "material" ==> r == (var m :- GetMaterial(cat, value); Ok(MaterialIngredient(m, sign)))
    ensures prefix == "tag" ==> (r.Ok? <==> TagRegistry.Lookup(cat.tagMap, value).Some?)
    ensures prefix == "tag" && r.Ok? ==> r.value == TagIngredient(TagRegistry.Lookup(cat.tagMap, value).value, sign)
    ensures prefix == "item" && r.Ok? ==>
              IsStrict(entry).Ok? && DecodeItem(cat, value).Ok? &&
              r.value == (if IsStrict(entry).value then StrictItemStackIngredient(DecodeItem(cat, value).value, sign)
                          else ItemStackIngredient(DecodeItem(cat, value).value, sign))
    ensures prefix !in {"material", "tag", "item"} ==> r == HookIngredientFor(cat.hooks, prefix, value, sign)
  {
    match prefix
    case "material" =>
      var m :- GetMaterial(cat, value);
      Ok(MaterialIngredient(m, sign))
    case "tag" =>
      (match TagRegistry.Lookup(cat.tagMap, value)
       case None => Err(Invalid("The tag " + value + " isn't valid."))
       case Some(t) => Ok(TagIngredient(t, sign)))
    case "item" =>
      var strict :- IsStrict(entry);
      var item :- DecodeItem(cat, value);
      if strict then Ok(StrictItemStackIngredient(item, sign)) else Ok(ItemStackIngredient(item, sign))
    case _ => HookIngredientFor(cat.hooks, prefix, value, sign)
  }

  /** One entry of the "ingredients" list. */
  function ConfigIngredient(cat: Catalog, entry: map<string, Value>): (r: Result<Ingredient>)
    ensures r.Ok? ==> "item" in entry && entry["item"].Str?
    ensures r.Ok? ==> SignOf(entry).Ok? && r.value.sign == SignOf(entry).value
    ensures "item" in entry && !entry["item"].Str? ==> r.Err? && r.error.Crash?
    ensures "item" !in entry ==> r.Err?
    ensures "item" in entry && entry["item"].Str? && SignOf(entry).Ok? ==>
              var data := SplitAll(entry["item"].s, ':');
              && (|data| == 0 ==> r.Err? && r.error.Crash?)
              && (|data| == 1 ==> r == (var m :- GetMaterial(cat, data[0]); Ok(MaterialIngredient(m, SignOf(entry).value))))
              && (|data| >= 2 ==> r == ConfigPrefixed(cat, entry, data[0], data[1], SignOf(entry).value))
  {
    if "item" in entry && !entry["item"].Str? then Err(Crash("ClassCastException: item is not a String"))
    else
      var sign :- SignOf(entry);
      if "item" !in entry then Err(Crash("NullPointerException: item is null"))
      else
        var data := SplitAll(entry["item"].s, ':');
        if |data| == 1 then
          var m :- GetMaterial(cat, data[0]);
          Ok(MaterialIngredient(m, sign))
        else if |data| == 0 then Err(Crash("ArrayIndexOutOfBoundsException: Index 0 out of bounds for length 0"))
        else ConfigPrefixed(cat, entry, data[0], data[1], sign)
  }

  /** The loop over the entries: one ingredient per entry, in order, stopping at the first exception. */
  function ConfigIngredients(cat: Catalog, entries: seq<map<string, Value>>): (r: Result<seq<Ingredient>>)
    ensures r.Ok? <==> forall i :: 0 <= i < |entries| ==> ConfigIngredient(cat, entries[i]).Ok?
    ensures r.Ok? ==> |r.value| == |entries|
    ensures r.Ok? ==> forall i :: 0 <= i < |entries| ==> r.value[i] == ConfigIngredient(cat, entries[i]).value
  {
    if entries == [] then Ok([])
    else
      var first :- ConfigIngredient(cat, entries[0]);
      var rest :- ConfigIngredients(cat, entries[1..]);
      Ok([first] + rest)
  }

  /** Adding an entry that parses to a list that parses appends its ingredient. */
  lemma ConfigIngredientsAppend(cat: Catalog, entries: seq<map<string, Value>>, e: map<string, Value>)
    requires ConfigIngredients(cat, entries).Ok? && ConfigIngredient(cat, e).Ok?
    ensures ConfigIngredients(cat, entries + [e]) == Ok(ConfigIngredients(cat, entries).value + [ConfigIngredient(cat, e).value])
  {
    var longer := entries + [e];
    forall i | 0 <= i < |longer|
      ensures ConfigIngredient(cat, longer[i]).Ok?
    {
      if i < |entries| {
        assert longer[i] == entries[i];
      }
    }
    var whole := ConfigIngredients(cat, longer);
    var expected := ConfigIngredients(cat, entries).value + [ConfigIngredient(cat, e).value];
    assert |whole.value| == |expected|;
    forall i | 0 <= i < |longer|
      ensures whole.value[i] == expected[i]
    {
      if i < |entries| {
        assert longer[i] == entries[i];
      }
    }
    assert whole.value == expected;
  }

  /** The first entry that throws decides the exception of the whole loop. */
  lemma {:induction false} FirstFailureWins(cat: Catalog, entries: seq<map<string, Value>>, i: nat)
    requires i < |entries| && ConfigIngredient(cat, entries[i]).Err?
    requires forall j :: 0 <= j < i ==> ConfigIngredient(cat, entries[j]).Ok?
    ensures ConfigIngredients(cat, entries) == Err(ConfigIngredient(cat, entries[i]).error)
    decreases i
  {
    if i > 0 {
      var rest := entries[1..];
      assert rest[i - 1] == entries[i];
      forall j | 0 <= j < i - 1
        ensures ConfigIngredient(cat, rest[j]).Ok?
      {
        assert rest[j] == entries[j + 1];
      }
      FirstFailureWins(cat, rest, i - 1);
      assert ConfigIngredient(cat, entries[0]).Ok?;
    }
  }

  /** When the first i entries parse together, each of them parses. */
  lemma PrefixParses(cat: Catalog, entries: seq<map<string, Value>>, i: nat)
    requires i <= |entries| && ConfigIngredients(cat, entries[..i]).Ok?
    ensures forall j :: 0 <= j < i ==> ConfigIngredient(cat, entries[j]).Ok?
  {
    assert forall j :: 0 <= j < i ==> entries[..i][j] == entries[j];
  }

  /** The loop of the constructor, appending to the ingredient list. */
  method CollectIngredients(cat: Catalog, entries: seq<map<string, Value>>) returns (r: Result<seq<Ingredient>>)
    ensures r == ConfigIngredients(cat, entries)
  {
    var list: seq<Ingredient> := [];
    var i := 0;
    while i < |entries|
      invariant 0 <= i <= |entries|
      invariant ConfigIngredients(cat, entries[..i]) == Ok(list)
    {
      var ing := ConfigIngredient(cat, entries[i]);
      if ing.Err? {
        PrefixParses(cat, entries, i);
        FirstFailureWins(cat, entries, i);
        return Err(ing.error);
      }
      ConfigIngredientsAppend(cat, entries[..i], entries[i]);
      TakeOneMore(entries, i);
      list := list + [ing.value];
      i := i + 1;
    }
    TakeAll(entries);
    r := Ok(list);
  }

  /** The result: a bare text is a base64 item; "material:X" a plain stack; "item:" and "base64:" decode. */
  function ConfigResult(cat: Catalog, text: string): (r: Result<Item>)
    ensures ':' !in text ==> r == DecodeItem(cat, text)
    ensures var parts := SplitAll(text, ':');
            && (|parts| == 0 ==> r.Err? && r.error.Crash?)
            && (|parts| == 1 ==> r == DecodeItem(cat, parts[0]))
            && (|parts| >= 2 && parts[0] == "material" ==>
                  (r.Ok? <==> GetMaterial(cat, parts[1]).Ok?) &&
                  (r.Ok? ==> r.value == Plain(GetMaterial(cat, parts[1]).value)) &&
                  (r.Err? ==> r.error == GetMaterial(cat, parts[1]).error))
            && (|parts| >= 2 && (parts[0] == "item" || parts[0] == "base64") ==> r == DecodeItem(cat, parts[1]))
            && (|parts| >= 2 && parts[0] !in {"material", "item", "base64"} ==>
                  (FindHook(cat.hooks, parts[0]).None? ==> r == Err(Invalid("The result " + text + " isn't valid."))) &&
                  (FindHook(cat.hooks, parts[0]).Some? ==> r == GetItemStack(FindHook(cat.hooks, parts[0]).value, parts[1])))
  {
    var parts := SplitAll(text, ':');
    if |parts| == 1 then DecodeItem(cat, parts[0])
    else if |parts| == 0 then Err(Crash("ArrayIndexOutOfBoundsException: Index 0 out of bounds for length 0"))
    else match parts[0]
      case "material" => var m :- GetMaterial(cat, parts[1]); Ok(Plain(m))
      case "item" => DecodeItem(cat, parts[1])
      case "base64" => DecodeItem(cat, parts[1])
      case _ =>
        match FindHook(cat.hooks, parts[0])
        case None => Err(Invalid("The result " + text + " isn't valid."))
        case Some(h) => GetItemStack(h, parts[1])
  }

  /**
   * The three spellings of a base64 result agree: a bare "X", "item:X" and
   * "base64:X" all decode X, while "material:X" is a plain stack of the
   * material X. The same "item:X" text is a plain stack to ItemRecipe.
   */
  lemma ConfigResultForms(cat: Catalog, x: string)
    requires ':' !in x && x != ""
    ensures ConfigResult(cat, x) == DecodeItem(cat, x)
    ensures ConfigResult(cat, "item:" + x) == DecodeItem(cat, x)
    ensures ConfigResult(cat, "base64:" + x) == DecodeItem(cat, x)
    ensures ConfigResult(cat, "material:" + x) == (var m :- GetMaterial(cat, x); Ok(Plain(m)))
    ensures ResolveResult(cat, Descriptor("item:" + x)) == (var m :- GetMaterial(cat, x); Ok(Plain(m)))
  {
    assert "item:" + x == "item" + [':'] + x;
    assert "base64:" + x == "base64" + [':'] + x;
    assert "material:" + x == "material" + [':'] + x;
    SplitAllPair("item", x, ':');
    SplitAllPair("base64", x, ':');
    SplitAllPair("material", x, ':');
    PrefixedResult(cat, "item", x);
  }

  /** The type: getString(path + "type", "ERROR"), upper-cased, through RecipeType.valueOf. */
  function ReadType(config: Config, p: string): (r: Result<RecipeType>)
    ensures r.Ok? <==> ValueOf(Upper(GetString(config, p + "type", "ERROR"))).Some?
    ensures r.Ok? ==> Name(r.value) == Upper(GetString(config, p + "type", "ERROR"))
  {
    var strType := GetString(config, p + "type", "ERROR");
    match ValueOf(Upper(strType))
    case None => Err(Invalid("The type " + strType + " isn't valid."))
    case Some(t) => Ok(t)
  }

  /** The result: "result.item" must be present, and its text is resolved. */
  function ReadResult(cat: Catalog, config: Config, p: string, name: string): (r: Result<Item>)
    ensures r.Ok? ==> p + "result.item" in config
    ensures p + "result.item" in config && config[p + "result.item"].Str? ==> r == ConfigResult(cat, config[p + "result.item"].s)
  {
    if p + "result.item" !in config then Err(Invalid("The recipe " + name + " doesn't have a result."))
    else match GetStringOrNull(config, p + "result.item")
      case None => Err(Crash("NullPointerException: result.item is null"))
      case Some(text) => ConfigResult(cat, text)
  }

  /** The part of the constructor after the category check: ingredients, then the result. */
  function ReadRest(cat: Catalog, name: string, p: string, config: Config, t: RecipeType, group: string, category: string): (r: Result<Configured>)
    ensures r.Ok? ==> p + "ingredients" in config
    ensures r.Ok? ==> ConfigIngredients(cat, GetMapList(config, p + "ingredients")) == Ok(r.value.ingredients)
    ensures r.Ok? ==> ReadResult(cat, config, p, name) == Ok(r.value.result)
    ensures r.Ok? ==> (r.value.pattern.Some? <==> p + "pattern" in config)
    ensures r.Ok? ==> r.value.amount == GetInt(config, p + "result.amount", 1)
    ensures r.Ok? ==> r.value.cookingTime == GetInt(config, p + "cooking-time", 0)
    ensures r.Ok? ==> r.value.experience == GetDouble(config, p + "experience", 0.0)
    ensures r.Ok? ==> r.value.recipeType == t && r.value.group == group && r.value.category == category
    ensures r.Ok? ==> r.value.name == RemoveAll(name, ".yml")
  {
    var pattern := if p + "pattern" in config then Some(GetStringList(config, p + "pattern")) else None;
    if p + "ingredients" !in config then Err(Invalid("The recipe " + name + " doesn't have ingredients."))
    else
      var ingredients :- ConfigIngredients(cat, GetMapList(config, p + "ingredients"));
      var result :- ReadResult(cat, config, p, name);
      Ok(Configured(RemoveAll(name, ".yml"), result, GetInt(config, p + "result.amount", 1), t, group, category,
                    GetInt(config, p + "cooking-time", 0), GetDouble(config, p + "experience", 0.0), pattern, ingredients))
  }

  /** The constructor at an already normalised path prefix `p`. */
  function ReadAt(cat: Catalog, name: string, p: string, config: Config): (r: Result<Configured>)
    ensures r.Ok? ==> r.value.name == RemoveAll(name, ".yml")
    ensures r.Ok? ==> ReadType(config, p) == Ok(r.value.recipeType)
    ensures r.Ok? ==> p + "category" in config && CheckCategory(r.value.category)
    ensures r.Ok? ==> r.value.category == GetString(config, p + "category", "")
    ensures r.Ok? ==> r.value.group == GetString(config, p + "group", "")
    ensures r.Ok? ==> p + "ingredients" in config
    ensures r.Ok? ==> ConfigIngredients(cat, GetMapList(config, p + "ingredients")) == Ok(r.value.ingredients)
    ensures r.Ok? ==> ReadResult(cat, config, p, name) == Ok(r.value.result)
    ensures r.Ok? ==> (r.value.pattern.Some? <==> p + "pattern" in config)
    ensures r.Ok? ==> r.value.amount == GetInt(config, p + "result.amount", 1)
    ensures r.Ok? ==> r.value.cookingTime == GetInt(config, p + "cooking-time", 0)
    ensures r.Ok? ==> r.value.experience == GetDouble(config, p + "experience", 0.0)
  {
    var t :- ReadType(config, p);
    var category := GetString(config, p + "category", "");
    var group := GetString(config, p + "group", "");
    if !CheckCategory(category) then Err(Invalid("The category " + category + " isn't valid."))
    else
      CheckCategoryNames(category);
      ReadRest(cat, name, p, config, t, group, category)
  }

  /** The four-argument constructor: the section at `path`, or the top of the file for "". */
  function ReadConfiguration(cat: Catalog, name: string, path: string, config: Config): (r: Result<Configured>)
    ensures path == "" || EndsWith(path, ".") ==> r == ReadAt(cat, name, path, config)
    ensures path != "" && !EndsWith(path, ".") ==> r == ReadAt(cat, name, path + ".", config)
  {
    ReadAt(cat, name, NormalisePath(path), config)
  }

  /** The three-argument constructor: the recipe at the top of the file. */
  function ReadTopLevel(cat: Catalog, name: string, config: Config): Result<Configured> {
    ReadConfiguration(cat, name, "", config)
  }

  /** build(): getItemRecipe with the configured fields; this revision passes no priority, so it is 0. */
  function BuildConfigured(c: Configured): (r: Result<ItemRecipe>)
    ensures r == GetItemRecipe(c.ingredients, c.recipeType, c.pattern, c.cookingTime, c.name, c.group,
                               c.category, Stack(c.result), c.amount, c.experience)
    ensures r.Ok? ==> r.value.priority == 0 && r.value.result == Stack(c.result)
  {
    GetItemRecipe(c.ingredients, c.recipeType, c.pattern, c.cookingTime, c.name, c.group,
                  c.category, Stack(c.result), c.amount, c.experience)
  }

  /** The setters and getType of Recipe all throw UnsupportedOperationException here. */
  datatype RecipeCall = SetName | SetResult | SetAmount | SetType | AddIngredient | SetGroup
                      | SetCategory | SetPattern | SetCookingTime | SetExperience | GetType

  function Call(c: Configured, call: RecipeCall): (o: Outcome)
    ensures o.Threw? && o.error.Unsupported?
  {
    Threw(Unsupported("Not supported yet."))
  }

  /** A file without a type (default "ERROR") is rejected, and so is one without a category. */
  lemma MissingTypeOrCategoryFails(cat: Catalog, name: string, path: string, config: Config)
    requires NormalisePath(path) + "type" !in config || NormalisePath(path) + "category" !in config
    ensures ReadConfiguration(cat, name, path, config).Err?
  {
    var p := NormalisePath(path);
    if p + "type" !in config {
      assert Upper("ERROR") == "ERROR";
    }
  }

  /** The type is read ignoring case. */
  lemma TypeIgnoresCase(config: Config, p: string, text: string)
    ensures ReadType(config[p + "type" := Str(text)], p).Ok? == ReadType(config[p + "type" := Str(Upper(text))], p).Ok?
    ensures ReadType(config[p + "type" := Str(text)], p).Ok? ==>
              ReadType(config[p + "type" := Str(text)], p) == ReadType(config[p + "type" := Str(Upper(text))], p)
  {
    UpperIdempotent(text);
  }

  /** Every entry of the list becomes exactly one ingredient, with the entry's sign. */
  lemma OneIngredientPerEntry(cat: Catalog, name: string, path: string, config: Config)
    requires ReadConfiguration(cat, name, path, config).Ok?
    ensures var entries := GetMapList(config, NormalisePath(path) + "ingredients");
            var ings := ReadConfiguration(cat, name, path, config).value.ingredients;
            |ings| == |entries| &&
            forall i :: 0 <= i < |entries| ==> SignOf(entries[i]).Ok? && ings[i].sign == SignOf(entries[i]).value
  {
    var entries := GetMapList(config, NormalisePath(path) + "ingredients");
    var ings := ReadConfiguration(cat, name, path, config).value.ingredients;
    forall i | 0 <= i < |entries|
      ensures SignOf(entries[i]).Ok? && ings[i].sign == SignOf(entries[i]).value
    {
      assert ConfigIngredient(cat, entries[i]).Ok?;
    }
  }

  /** An entry "item:X" decodes X as a base64 item. */
  lemma ConfigItemDecodes(cat: Catalog, x: string)
    requires ':' !in x && x != ""
    ensures ConfigIngredient(cat, map["item" := Str("item:" + x)]) ==
            (var item :- DecodeItem(cat, x); Ok(ItemStackIngredient(item, None)))
  {
    assert "item:" + x == "item" + [':'] + x;
    EntryPrefixed(cat, "item", x);
  }

  /** A signless entry "p:x", with no ':' in p or x, goes to the switch on p with the value x. */
  lemma EntryPrefixed(cat: Catalog, p: string, x: string)
    requires ':' !in p && ':' !in x && x != ""
    ensures var entry := map["item" := Str(p + [':'] + x)];
            ConfigIngredient(cat, entry) == ConfigPrefixed(cat, entry, p, x, None)
  {
    var entry := map["item" := Str(p + [':'] + x)];
    SplitAllPair(p, x, ':');
    assert SignOf(entry) == Ok(None);
  }

  /**
   * The same "item:X" text means different things: to parseIngredient a
   * plain stack of material X, here the base64 item X.
   */
  lemma ItemPrefixDiffersFromParser(cat: Catalog, x: string)
    requires ':' !in x && x != ""
    ensures ConfigIngredient(cat, map["item" := Str("item:" + x)]) ==
            (var item :- DecodeItem(cat, x); Ok(ItemStackIngredient(item, None)))
    ensures ParseIngredient(cat, "item:" + x) == (var m :- GetMaterial(cat, x); Ok(ItemStackIngredient(Plain(m), None)))
  {
    ConfigItemDecodes(cat, x);
    ParseItemPrefix(cat, x, None, false);
  }

  /** There is no "base64" ingredient case here: that prefix goes to the providers. */
  lemma Base64IngredientGoesToProviders(cat: Catalog, x: string)
    requires ':' !in x && x != ""
    ensures ConfigIngredient(cat, map["item" := Str("base64:" + x)]) == HookIngredientFor(cat.hooks, "base64", x, None)
  {
    assert "base64:" + x == "base64" + [':'] + x;
    EntryPrefixed(cat, "base64", x);
  }
}
