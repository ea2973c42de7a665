# RecipesAPI in Dafny

A model of the core of RecipesAPI, a library that lets a Minecraft server plugin
declare crafting, cooking, smithing and stone-cutting recipes. Recipes come from
code, through a builder, or from YAML files. The library registers them with the
server and vetoes crafts that the server's own matcher lets through but that do
not match the recipe's ingredients.

The model covers:

- **Items and ingredients** (`items.dfy`, `ingredients.dfy`). The five ingredient
  variants: material, tag, loose item stack, strict item stack and provider
  item. Each has its `isSimilar` match, its native `choice`, and the sign it
  takes in a shaped pattern.
- **RecipeType** (`recipe_types.dfy`). The per-kind ingredient limits, the
  cooking kinds, and the namespaced key of a recipe, with the plugin
  registration as a small class.
- **TagRegistry** (`tag_registry.dfy`). A class holding the tag map. It is
  filled from the host's declared Tag fields and read case-insensitively.
- **Item providers** (`hooks.dfy`). The shared lookup of the first enabled
  provider whose name equals a prefix, ignoring case.
- **Util** (`util.dfy`). Material and tag lookup, and the ingredient string
  parser (`material:`, `tag:`, `item:`, `base64:`, `<provider>:`).
- **The ItemRecipe record** (`item_recipe.dfy`). The `getItemRecipe`
  validation that creates it, its key, the resolution of its result, and what
  reaches the native recipe.
- **The two recipe builders** (`recipe_draft.dfy`, `builder.dfy`,
  `legacy_builder.dfy`). The builder of the current revision
  (`impl/domains/recipes/RecipeBuilder`) and that of the earlier revision
  (`impl/RecipeBuilder`) are both classes whose setters update fields in place.
  Each setter is proved against a step function on the shared builder state.
- **RecipeConfiguration** (`yaml.dfy`, `configuration.dfy`). A recipe read
  from a YAML section.
- **PrepareCraftListener** (`listener.dfy`). The shaped, shapeless, smithing and
  smelting checks, modelled as written: loops over the grid and the registered
  recipes, with their early returns and the exceptions they can raise.
- **RecipesAPI** (`recipes_api.dfy`). A class holding the recipe list and the
  server's recipe table. It covers add, remove, register, unregister and the
  loading of a recipe folder.
- **RecipeLoader** (`loader.dfy`, `priority_sort.dfy`). A class holding the
  added folders and files, with jar extraction, per-file error skipping, and
  the stable sort by descending priority.

Java exceptions become an `Error` value:

- `Invalid` stands for `IllegalArgumentException`;
- `Unsupported` for `UnsupportedOperationException`;
- `Crash` for a null dereference, an index out of bounds or a failed cast.

Operations that can throw return a `Result` or an `Outcome`. Where a
state-changing method can throw, its contract says what the state is at the
point it throws.

## Model

| member | source | states |
|---|---|---|
| Items.Plain | src/main/java/fr/traqueur/recipes/impl/RecipeBuilder.java:88 | `new ItemStack(material)` is one item of that type with no metadata |
| Ingredients.ChoiceAgreesWithMatch | src/main/java/fr/traqueur/recipes/impl/domains/ingredients/ItemStackIngredient.java:25-54 | the native choice admits exactly what material, tag and strict ingredients match, and at least what a loose ingredient matches |
| Ingredients.TypeOnlyIngredients | src/main/java/fr/traqueur/recipes/impl/domains/ingredients/TagIngredient.java:40-43 | material and tag ingredients decide on the item's type alone |
| Ingredients.LooseMatchNecessary | src/main/java/fr/traqueur/recipes/impl/domains/ingredients/ItemStackIngredient.java:25-39 | a loose match means same type, at least the template's amount, metadata on both or neither, and candidate data keys among the template's |
| Ingredients.LooseMatchWithoutMeta | src/main/java/fr/traqueur/recipes/impl/domains/ingredients/ItemStackIngredient.java:25-32 | without metadata, a loose match holds iff type agrees and the amount is at least the template's |
| Ingredients.LooseMatchLargerStack | src/main/java/fr/traqueur/recipes/impl/domains/ingredients/ItemStackIngredient.java:29 | a larger stack of a loosely matching item still matches |
| Ingredients.LooseMatchNeedsLoreAndModelData | src/main/java/fr/traqueur/recipes/impl/domains/ingredients/ItemStackIngredient.java:41-48 | a candidate with metadata but no lore, or no custom model data, never matches loosely |
| Ingredients.StrictAndLooseIncomparable | src/main/java/fr/traqueur/recipes/impl/domains/ingredients/StrictItemStackIngredient.java:36-39 | strict and loose matching of one template are incomparable: each accepts a candidate the other refuses |
| RecipeTypes.ValueOf | src/main/java/fr/traqueur/recipes/api/RecipeType.java:12-46 | valueOf succeeds only on a constant's exact name, and returns that constant |
| RecipeTypes.ValueOfName | src/main/java/fr/traqueur/recipes/api/RecipeType.java:12-46 | valueOf(name()) gives every constant back |
| RecipeTypes.ValueOfOnlyNames | src/main/java/fr/traqueur/recipes/api/RecipeType.java:12-46 | valueOf accepts a string iff it is some constant's name |
| RecipeTypes.MaxIngredientsTable | src/main/java/fr/traqueur/recipes/api/RecipeType.java:17-45 | the ingredient limit is 9 exactly for the crafting kinds, 3 for smithing, 1 for the cooking kinds and stone cutting |
| RecipeTypes.SmeltingKinds | src/main/java/fr/traqueur/recipes/api/RecipeType.java:95-97 | the smelting kinds are campfire, blasting, smoking and smelting |
| RecipeTypes.KindOfKeyFor | src/main/java/fr/traqueur/recipes/api/RecipeType.java:79-81 | the kind can be read back from a key built from it |
| RecipeTypes.KeyForInjective | src/main/java/fr/traqueur/recipes/api/RecipeType.java:79-81 | two (kind, name) pairs share a key in one namespace iff the kinds are equal and the names are equal ignoring case |
| RecipeTypes.NamespacedKeyOf | src/main/java/fr/traqueur/recipes/api/RecipeType.java:79-81 | a key is made iff a plugin is registered, in its lower-cased namespace, as lower-case kind name + "_" + lower-cased key |
| RecipeTypes.PluginRegistration.constructor | src/main/java/fr/traqueur/recipes/api/RecipeType.java:51 | no plugin is registered at first |
| RecipeTypes.PluginRegistration.RegisterPlugin | src/main/java/fr/traqueur/recipes/api/RecipeType.java:87-89 | the last registered plugin wins |
| RecipeTypes.PluginRegistration.GetNamespacedKey | src/main/java/fr/traqueur/recipes/api/RecipeType.java:79-81 | the key is made in the currently registered namespace, failing while none is |
| TagRegistry.StaticTagsKeys | src/main/java/fr/traqueur/recipes/api/TagRegistry.java:21-34 | a name is registered iff some field of the Tag class with that name is a Tag of Material |
| TagRegistry.StaticTagsLastWins | src/main/java/fr/traqueur/recipes/api/TagRegistry.java:21-43 | under a name, the last field registered with it wins |
| TagRegistry.Lookup | src/main/java/fr/traqueur/recipes/api/TagRegistry.java:50-52 | a tag is found iff the upper-cased key is registered, and it is the one registered |
| TagRegistry.LookupIgnoresCase | src/main/java/fr/traqueur/recipes/api/TagRegistry.java:50-52 | keys equal ignoring case find the same tag |
| TagRegistry.LookupAfterRegister | src/main/java/fr/traqueur/recipes/api/TagRegistry.java:41-52 | registering overwrites; a name that is not upper case can never be found |
| TagRegistry.Registry.constructor | src/main/java/fr/traqueur/recipes/api/TagRegistry.java:21-34 | the static initialiser registers exactly the Tag-of-Material fields, in declaration order |
| TagRegistry.Registry.Register | src/main/java/fr/traqueur/recipes/api/TagRegistry.java:41-43 | put overwrites the entry under the key |
| TagRegistry.Registry.GetTag | src/main/java/fr/traqueur/recipes/api/TagRegistry.java:50-52 | getTag is the upper-cased lookup |
| JavaStrings.Upper | src/main/java/fr/traqueur/recipes/api/Util.java:71 | toUpperCase keeps the length and upper-cases each character |
| JavaStrings.Lower | src/main/java/fr/traqueur/recipes/api/RecipeType.java:80 | toLowerCase keeps the length and lower-cases each character |
| JavaStrings.EqualsIgnoreCaseIffUpper | src/main/java/fr/traqueur/recipes/api/Util.java:108 | equalsIgnoreCase holds iff the upper-cased strings are equal |
| JavaStrings.SplitFirst | src/main/java/fr/traqueur/recipes/api/Util.java:85 | split(":", 2) gives one piece iff there is no separator, else a separator-free head and a tail that glue back to the input |
| JavaStrings.JoinPieces | src/main/java/fr/traqueur/recipes/impl/domains/recipes/RecipeConfiguration.java:128 | the pieces between separators glue back to the input |
| JavaStrings.SplitFirstAt | src/main/java/fr/traqueur/recipes/api/Util.java:85 | "prefix:value" splits at its first separator into exactly prefix and value |
| JavaStrings.SplitAllPair | src/main/java/fr/traqueur/recipes/impl/domains/recipes/RecipeConfiguration.java:158 | split(":") of "prefix:value" with one separator and a non-empty value gives exactly those two pieces |
| JavaStrings.RemoveYmlSuffix | src/main/java/fr/traqueur/recipes/api/RecipeLoader.java:214 | removing ".yml" from "n.yml" gives n back when n holds no ".yml" |
| JavaStrings.RemoveAllAbsent | src/main/java/fr/traqueur/recipes/impl/domains/recipes/RecipeConfiguration.java:99 | replace leaves a string without the target unchanged |
| JavaStrings.RemoveAllSinglePass | src/main/java/fr/traqueur/recipes/impl/domains/recipes/RecipeConfiguration.java:99 | replace makes one left-to-right pass, so "..ymlyml" still holds ".yml" afterwards |
| Hooks.FindHookIndex | src/main/java/fr/traqueur/recipes/api/Util.java:106-110 | findFirst stops at the first enabled provider whose name equals the prefix ignoring case, and finds none iff no provider qualifies |
| Hooks.FindHook | src/main/java/fr/traqueur/recipes/api/Util.java:106-110 | a provider is found iff one is enabled with a matching name, and the one found qualifies |
| Hooks.FindHookIgnoresCase | src/main/java/fr/traqueur/recipes/api/Util.java:108 | prefixes equal up to case find the same provider |
| Hooks.FindHookSkipsDisabled | src/main/java/fr/traqueur/recipes/api/Util.java:107 | a disabled provider never changes the lookup's result, wherever it stands |
| Hooks.GetIngredient | src/main/java/fr/traqueur/recipes/impl/hook/hooks/ItemsAdderIngredient.java:24-30 | a provider builds an ingredient iff it knows the id, carrying the sign, and otherwise throws |
| Hooks.GetItemStack | src/main/java/fr/traqueur/recipes/impl/hook/Hooks.java:25-30 | a provider yields its item iff it knows the id |
| Hooks.HookIngredientFor | src/main/java/fr/traqueur/recipes/api/Util.java:106-111 | "The data ... isn't valid." when no provider qualifies; otherwise the provider's ingredient, with the sign and id, from a provider whose name equals the prefix ignoring case |
| Hooks.HookItemFor | src/main/java/fr/traqueur/recipes/impl/domains/ItemRecipe.java:144-149 | an unknown prefix throws; otherwise the chosen provider's item for the id |
| Util.GetMaterial | src/main/java/fr/traqueur/recipes/api/Util.java:69-75 | a material is found iff the upper-cased name is one, and it is that name; otherwise IllegalArgumentException |
| Util.DecodeItem | src/main/java/fr/traqueur/recipes/api/Util.java:29-49 | base64 decoding gives the serialised item, and fails for a string that is not one |
| Util.GetTag | src/main/java/fr/traqueur/recipes/api/Util.java:140-150 | the block tag wins over the item tag; neither is an IllegalArgumentException |
| Util.ParsePrefixed | src/main/java/fr/traqueur/recipes/api/Util.java:89-112 | each built-in prefix builds its own variant with the sign; "item" and "base64" are strict iff asked; any other prefix goes to the providers |
| Util.ParseIngredient | src/main/java/fr/traqueur/recipes/api/Util.java:84-133 | the parsed ingredient carries the given sign; the shorter overloads pass no sign and non-strict |
| Util.ParseBareMaterial | src/main/java/fr/traqueur/recipes/api/Util.java:86-87 | a string without ':' parses iff it names a material, into a material ingredient |
| Util.ParseSplitsAtFirstColon | src/main/java/fr/traqueur/recipes/api/Util.java:85 | only the first ':' separates prefix from value |
| Util.ParseItemPrefix | src/main/java/fr/traqueur/recipes/api/Util.java:92-99 | "item:X" is a one-item stack of material X, strict or loose as asked |
| Util.StrictOnlyForItems | src/main/java/fr/traqueur/recipes/api/Util.java:95-104 | the strict flag changes nothing outside the "item" and "base64" prefixes |
| Util.BuiltInPrefixesAreCaseSensitive | src/main/java/fr/traqueur/recipes/api/Util.java:89-106 | "MATERIAL:..." is not the built-in prefix and goes to the providers |
| Util.UnknownPrefixFails | src/main/java/fr/traqueur/recipes/api/Util.java:110 | an unknown prefix with no enabled provider of that name is an IllegalArgumentException |
| ItemRecipes.GetItemRecipe | src/main/java/fr/traqueur/recipes/api/domains/Recipe.java:214-232 | a recipe is made iff ingredients are present, a shaped recipe has a non-empty pattern and a cooking kind a non-zero time; each failure has its own message, in order; every argument reaches the record |
| ItemRecipes.CookingTimeCheckedOnlyForZero | src/main/java/fr/traqueur/recipes/api/domains/Recipe.java:227-229 | only the cooking kinds check the time, and only against exactly 0 |
| ItemRecipes.GetKey | src/main/java/fr/traqueur/recipes/impl/domains/ItemRecipe.java:160-162 | the key is the type's namespaced key for the recipe name |
| ItemRecipes.ResolvePrefixed | src/main/java/fr/traqueur/recipes/impl/domains/ItemRecipe.java:140-150 | "material" and "item" give a plain stack, "base64" the decoded item, any other prefix the chosen provider's item or "The result ... isn't valid." |
| ItemRecipes.ToBukkitItemStack | src/main/java/fr/traqueur/recipes/impl/domains/ItemRecipe.java:134-154 | the result resolves iff its descriptor does, and then carries the recipe's amount |
| ItemRecipes.BareResultIsMaterial | src/main/java/fr/traqueur/recipes/impl/domains/ItemRecipe.java:137-138 | a descriptor without ':' resolves iff it names a material, to a stack of the recipe's amount |
| ItemRecipes.MaterialAndItemPrefixesAgree | src/main/java/fr/traqueur/recipes/impl/domains/ItemRecipe.java:141-142 | "material:X" and "item:X" resolve alike, iff X is a material |
| ItemRecipes.Base64Result | src/main/java/fr/traqueur/recipes/impl/domains/ItemRecipe.java:143 | "base64:D" resolves iff D decodes, to the decoded item with the recipe's amount |
| ItemRecipes.ProviderResult | src/main/java/fr/traqueur/recipes/impl/domains/ItemRecipe.java:144-149 | another prefix fails without a provider, and otherwise gives the provider's item with the recipe's amount |
| ItemRecipes.GroupOf | src/main/java/fr/traqueur/recipes/impl/domains/ItemRecipe.java:52-54 | the group is set iff it is non-empty |
| ItemRecipes.CategoryOf | src/main/java/fr/traqueur/recipes/impl/domains/ItemRecipe.java:55-57 | an empty category sets none; otherwise the upper-cased name must be a known book category, or valueOf throws |
| ItemRecipes.Choices | src/main/java/fr/traqueur/recipes/impl/domains/ItemRecipe.java:62-64 | one native choice per ingredient, in order |
| ItemRecipes.Signs | src/main/java/fr/traqueur/recipes/impl/domains/ItemRecipe.java:49-51 | the signs unbox iff every ingredient has one, in order; a null sign throws |
| ItemRecipes.ToNative | src/main/java/fr/traqueur/recipes/impl/domains/ItemRecipe.java:44-122 | each kind gets the key and result; cooking kinds and stone cutting take the first ingredient's choice, smithing the first three, crafting all; a shaped recipe takes every ingredient's sign in order; crafting kinds take the crafting-book category and cooking kinds the cooking-book one, and an unknown category throws; stone cutting and smithing take none; the conversion succeeds for each kind exactly when its pattern, signs, ingredients and category allow |
| ItemRecipes.ExtraIngredientsIgnored | src/main/java/fr/traqueur/recipes/impl/domains/ItemRecipe.java:74-120 | ingredients past the first (past the third for smithing) do not affect the native recipe |
| ItemRecipes.ShapedNeedsSigns | src/main/java/fr/traqueur/recipes/impl/domains/ItemRecipe.java:49-51 | a shaped recipe with a signless ingredient cannot be converted |
| ItemRecipes.ToBukkitRecipe | src/main/java/fr/traqueur/recipes/impl/domains/ItemRecipe.java:128-132 | a converted recipe carries getKey's key and the resolved result with the recipe's amount; with no plugin registered it fails |
| Yaml.GetString | src/main/java/fr/traqueur/recipes/impl/domains/recipes/RecipeConfiguration.java:103 | getString(path, def) gives def for a missing path and a string's own text |
| Yaml.GetStringOrNull | src/main/java/fr/traqueur/recipes/impl/domains/recipes/RecipeConfiguration.java:157 | getString(path) gives null for a missing path and a string's own text |
| Yaml.Truncate | src/main/java/fr/traqueur/recipes/impl/domains/recipes/RecipeConfiguration.java:173 | a double is cast to int by truncation toward zero |
| Yaml.GetInt | src/main/java/fr/traqueur/recipes/impl/domains/recipes/RecipeConfiguration.java:173 | getInt(path, def) gives def for a missing path and an integer's value |
| Yaml.GetDouble | src/main/java/fr/traqueur/recipes/impl/domains/recipes/RecipeConfiguration.java:177 | getDouble(path, def) gives def for a missing path and a number's value |
| Yaml.GetStringList | src/main/java/fr/traqueur/recipes/impl/domains/recipes/RecipeConfiguration.java:116 | getStringList gives an empty list for a missing path or a non-list, and at most one text per element |
| Yaml.ScalarTexts | src/main/java/fr/traqueur/recipes/impl/domains/recipes/RecipeConfiguration.java:116 | a list of strings gives each string, in order |
| Yaml.GetMapList | src/main/java/fr/traqueur/recipes/impl/domains/recipes/RecipeConfiguration.java:123 | getMapList gives no entries for a missing path or a non-list |
| Yaml.Sections | src/main/java/fr/traqueur/recipes/impl/domains/recipes/RecipeConfiguration.java:123 | a list of sections gives each section, in order |
| Yaml.FirstChar | src/main/java/fr/traqueur/recipes/impl/domains/recipes/RecipeConfiguration.java:126 | toString().charAt(0) of a string is its first character, and throws on an empty one |
| Configuration.NormalisePath | src/main/java/fr/traqueur/recipes/impl/domains/recipes/RecipeConfiguration.java:100-102 | a non-empty path gets exactly one trailing "."; the empty path stays empty |
| Configuration.NormalisePathIdempotent | src/main/java/fr/traqueur/recipes/impl/domains/recipes/RecipeConfiguration.java:100-102 | normalising twice is normalising once |
| Configuration.CheckCategoryNames | src/main/java/fr/traqueur/recipes/impl/domains/recipes/RecipeConfiguration.java:224-236 | a category is accepted iff its upper case is a cooking or crafting book category; the empty default is refused |
| Configuration.IsStrict | src/main/java/fr/traqueur/recipes/impl/domains/recipes/RecipeConfiguration.java:193-195 | strict iff the key is present with a true boolean; a non-boolean value fails the cast |
| Configuration.SignOf | src/main/java/fr/traqueur/recipes/impl/domains/recipes/RecipeConfiguration.java:125-126 | no "sign" key means no sign; a non-empty string sign is its first character |
| Configuration.ConfigPrefixed | src/main/java/fr/traqueur/recipes/impl/domains/recipes/RecipeConfiguration.java:132-148 | "material" gives a material ingredient, "tag" a registry tag, "item" a decoded stack (strict as the entry says), any other prefix the providers; each with the sign |
| Configuration.ConfigIngredient | src/main/java/fr/traqueur/recipes/impl/domains/recipes/RecipeConfiguration.java:123-151 | a non-string "item" fails the cast and a missing one throws; a text with no piece throws, a single piece is a material ingredient of that name (or the material lookup's error), and two or more pieces go to the prefix switch with the second piece as value; the entry's sign is carried |
| Configuration.ConfigIngredients | src/main/java/fr/traqueur/recipes/impl/domains/recipes/RecipeConfiguration.java:123-152 | the list parses iff every entry does, one ingredient per entry in order |
| Configuration.ConfigIngredientsAppend | src/main/java/fr/traqueur/recipes/impl/domains/recipes/RecipeConfiguration.java:149 | a further parsable entry appends its ingredient |
| Configuration.FirstFailureWins | src/main/java/fr/traqueur/recipes/impl/domains/recipes/RecipeConfiguration.java:123-152 | the first entry that throws decides the exception of the loop |
| Configuration.CollectIngredients | src/main/java/fr/traqueur/recipes/impl/domains/recipes/RecipeConfiguration.java:123-152 | the loop adding to the ingredient list computes the list specification, failing at the first bad entry |
| Configuration.ConfigResult | src/main/java/fr/traqueur/recipes/impl/domains/recipes/RecipeConfiguration.java:157-172 | a text with no piece throws; a single piece is decoded as a base64 item; "material:X" is a plain stack of X or the material lookup's error; "item:X" and "base64:X" decode X; any other prefix takes the first enabled provider's item, or fails with "The result ... isn't valid." |
| Configuration.ConfigResultForms | src/main/java/fr/traqueur/recipes/impl/domains/recipes/RecipeConfiguration.java:157-168 | a bare "X", "item:X" and "base64:X" all decode X, and "material:X" is a plain stack; the same "item:X" is a plain stack of material X to ItemRecipe |
| Configuration.ReadType | src/main/java/fr/traqueur/recipes/impl/domains/recipes/RecipeConfiguration.java:103-108 | the type is read iff the upper-cased text (default "ERROR") names a type, and it is that type |
| Configuration.ReadResult | src/main/java/fr/traqueur/recipes/impl/domains/recipes/RecipeConfiguration.java:154-172 | a result needs "result.item", and its text is resolved |
| Configuration.ReadRest | src/main/java/fr/traqueur/recipes/impl/domains/recipes/RecipeConfiguration.java:115-177 | a read recipe has ingredients parsed from the list, the resolved result, a pattern iff one is given, and the numeric defaults 1, 0 and 0.0 |
| Configuration.ReadAt | src/main/java/fr/traqueur/recipes/impl/domains/recipes/RecipeConfiguration.java:98-178 | a read recipe has every field read under the prefix, a valid type and category, the ingredients parsed one per entry, the result resolved, and the ".yml"-free name |
| Configuration.ReadConfiguration | src/main/java/fr/traqueur/recipes/impl/domains/recipes/RecipeConfiguration.java:98-102 | a path with or without its trailing "." reads the same section; "" is the top of the file |
| Configuration.BuildConfigured | src/main/java/fr/traqueur/recipes/impl/domains/recipes/RecipeConfiguration.java:330-332 | build goes through getItemRecipe with the configured fields, with a stack result and priority 0 |
| Configuration.Call | src/main/java/fr/traqueur/recipes/impl/domains/recipes/RecipeConfiguration.java:241-324 | every setter and getType throws UnsupportedOperationException |
| Configuration.MissingTypeOrCategoryFails | src/main/java/fr/traqueur/recipes/impl/domains/recipes/RecipeConfiguration.java:103-113 | a file without a type or without a category is refused |
| Configuration.TypeIgnoresCase | src/main/java/fr/traqueur/recipes/impl/domains/recipes/RecipeConfiguration.java:105 | the type is read ignoring case |
| Configuration.OneIngredientPerEntry | src/main/java/fr/traqueur/recipes/impl/domains/recipes/RecipeConfiguration.java:123-152 | a read recipe has one ingredient per entry, each with its entry's sign |
| Configuration.ConfigItemDecodes | src/main/java/fr/traqueur/recipes/impl/domains/recipes/RecipeConfiguration.java:135-141 | an "item:X" entry decodes X as a base64 item |
| Configuration.ItemPrefixDiffersFromParser | src/main/java/fr/traqueur/recipes/impl/domains/recipes/RecipeConfiguration.java:135-141 | "item:X" is a base64 item here but a plain stack of material X to parseIngredient |
| Configuration.Base64IngredientGoesToProviders | src/main/java/fr/traqueur/recipes/impl/domains/recipes/RecipeConfiguration.java:142-147 | the ingredient switch has no "base64" case, so that prefix goes to the providers |
| RecipeDraft.AreLengthsValidIffRectangular | src/main/java/fr/traqueur/recipes/impl/domains/recipes/RecipeBuilder.java:190-196 | for at most three rows, "all lengths 1 to 3 and one distinct length" holds iff the pattern is a grid of 1 to 3 rows of one length from 1 to 3 |
| RecipeDraft.SetNameStep | src/main/java/fr/traqueur/recipes/impl/domains/recipes/RecipeBuilder.java:78-84 | the name is set iff the type is, and "Recipe type is not set" otherwise |
| RecipeDraft.SetAmountStep | src/main/java/fr/traqueur/recipes/impl/domains/recipes/RecipeBuilder.java:102-105 | only the amount changes, unchecked |
| RecipeDraft.SetTypeStep | src/main/java/fr/traqueur/recipes/impl/domains/recipes/RecipeBuilder.java:111-114 | only the type changes, unchecked |
| RecipeDraft.AddIngredientStep | src/main/java/fr/traqueur/recipes/impl/domains/recipes/RecipeBuilder.java:120-145 | an ingredient is appended iff the type is set, has room, and for a shaped recipe the pattern is set and holds the ingredient's sign; the failures in order |
| RecipeDraft.SetGroupStep | src/main/java/fr/traqueur/recipes/impl/domains/recipes/RecipeBuilder.java:151-157 | the group is set iff the type is |
| RecipeDraft.SetCategoryStep | src/main/java/fr/traqueur/recipes/impl/domains/recipes/RecipeBuilder.java:163-173 | the category is set iff the type is set and is not stone cutting |
| RecipeDraft.SetPatternStep | src/main/java/fr/traqueur/recipes/impl/domains/recipes/RecipeBuilder.java:179-204 | a pattern is stored iff the type is shaped and the pattern is a grid of 1 to 3 rows of one length 1 to 3; "Pattern is too long" past three rows |
| RecipeDraft.SetCookingTimeStep | src/main/java/fr/traqueur/recipes/impl/domains/recipes/RecipeBuilder.java:210-219 | the cooking time is set iff the type is a cooking kind |
| RecipeDraft.SetExperienceStep | src/main/java/fr/traqueur/recipes/impl/domains/recipes/RecipeBuilder.java:225-234 | the experience is set iff the type is a cooking kind |
| RecipeDraft.AddTagStep | src/main/java/fr/traqueur/recipes/api/domains/Recipe.java:66-78 | a tag ingredient with the given sign (none for the short form) is appended as addIngredient would |
| RecipeDraft.AddItemStep | src/main/java/fr/traqueur/recipes/api/domains/Recipe.java:98-122 | addIngredient of a strict or loose stack, as asked, with the item and sign: it succeeds, fails and changes the draft exactly as AddIngredientStep does for that ingredient |
| RecipeDraft.AddItemWithoutSignStep | src/main/java/fr/traqueur/recipes/api/domains/Recipe.java:85-90 | refused outright on a shaped recipe, else a loose signless stack |
| RecipeDraft.AddMaterialStep | src/main/java/fr/traqueur/recipes/api/domains/Recipe.java:142-144 | addIngredient of a material ingredient with the sign: it succeeds, fails and changes the draft exactly as AddIngredientStep does, appending that ingredient |
| RecipeDraft.AddMaterialWithoutSignStep | src/main/java/fr/traqueur/recipes/api/domains/Recipe.java:129-134 | refused outright on a shaped recipe, else a signless material |
| RecipeDraft.SignlessShapedRefusedEitherWay | src/main/java/fr/traqueur/recipes/api/domains/Recipe.java:85-90 | on a shaped recipe a signless item is refused with or without the overload's own check |
| RecipeDraft.AddAllAppendsPrefix | src/main/java/fr/traqueur/recipes/api/domains/Recipe.java:54-59 | the varargs loop appends a prefix of its arguments and nothing else; all of them iff it returns |
| RecipeDraft.InitialValid | src/main/java/fr/traqueur/recipes/impl/domains/recipes/RecipeBuilder.java:22-72 | a new builder has amount 1, no ingredients, and satisfies the invariant |
| RecipeDraft.StepsKeepValid | src/main/java/fr/traqueur/recipes/impl/domains/recipes/RecipeBuilder.java:77-247 | every setter that returns keeps the pattern a grid and a named builder typed |
| RecipeDraft.AddAllKeepsValid | src/main/java/fr/traqueur/recipes/api/domains/Recipe.java:54-59 | the varargs loop keeps the invariant whether it returns or throws |
| RecipeDraft.PatternNeverEmpty | src/main/java/fr/traqueur/recipes/api/domains/Recipe.java:223-225 | a builder never reaches getItemRecipe's "Pattern is empty" |
| RecipeDraft.IngredientsWithinLimit | src/main/java/fr/traqueur/recipes/impl/domains/recipes/RecipeBuilder.java:124-126 | an ingredient is added only while the type's limit is not reached |
| Builder.BuildRecipe | src/main/java/fr/traqueur/recipes/impl/domains/recipes/RecipeBuilder.java:260-275 | build succeeds iff name, result and type are set and getItemRecipe accepts the rest; the name and result errors come first; the recipe carries every builder field and the priority |
| Builder.BuildNeverReportsUnreachableErrors | src/main/java/fr/traqueur/recipes/impl/domains/recipes/RecipeBuilder.java:268-270 | from a builder that only went through its setters, build never answers "Type is not set" or "Pattern is empty" |
| Builder.RecipeBuilder.constructor | src/main/java/fr/traqueur/recipes/impl/domains/recipes/RecipeBuilder.java:22-72 | a new builder holds the field defaults (amount 1, no type, priority 0) |
| Builder.RecipeBuilder.SetName | src/main/java/fr/traqueur/recipes/impl/domains/recipes/RecipeBuilder.java:77-84 | the name changes as SetNameStep says, nothing else changes |
| Builder.RecipeBuilder.SetResult | src/main/java/fr/traqueur/recipes/impl/domains/recipes/RecipeBuilder.java:89-96 | the encoded result is stored iff the type is set |
| Builder.RecipeBuilder.SetAmount | src/main/java/fr/traqueur/recipes/impl/domains/recipes/RecipeBuilder.java:101-105 | the amount changes as SetAmountStep says |
| Builder.RecipeBuilder.SetType | src/main/java/fr/traqueur/recipes/impl/domains/recipes/RecipeBuilder.java:110-114 | the type changes as SetTypeStep says |
| Builder.RecipeBuilder.AddIngredient | src/main/java/fr/traqueur/recipes/impl/domains/recipes/RecipeBuilder.java:119-145 | the ingredient list changes as AddIngredientStep says, with the same exception |
| Builder.RecipeBuilder.AddIngredients | src/main/java/fr/traqueur/recipes/api/domains/Recipe.java:54-59 | the varargs loop ends in the state and outcome AddAllStep gives |
| Builder.RecipeBuilder.AddTag | src/main/java/fr/traqueur/recipes/api/domains/Recipe.java:66-78 | as AddTagStep |
| Builder.RecipeBuilder.AddItem | src/main/java/fr/traqueur/recipes/api/domains/Recipe.java:98-122 | as AddItemStep |
| Builder.RecipeBuilder.AddItemWithoutSign | src/main/java/fr/traqueur/recipes/api/domains/Recipe.java:85-90 | as AddItemWithoutSignStep |
| Builder.RecipeBuilder.AddMaterial | src/main/java/fr/traqueur/recipes/api/domains/Recipe.java:142-144 | as AddMaterialStep |
| Builder.RecipeBuilder.AddMaterialWithoutSign | src/main/java/fr/traqueur/recipes/api/domains/Recipe.java:129-134 | as AddMaterialWithoutSignStep |
| Builder.RecipeBuilder.SetGroup | src/main/java/fr/traqueur/recipes/impl/domains/recipes/RecipeBuilder.java:150-157 | as SetGroupStep |
| Builder.RecipeBuilder.SetCategory | src/main/java/fr/traqueur/recipes/impl/domains/recipes/RecipeBuilder.java:162-173 | as SetCategoryStep |
| Builder.RecipeBuilder.SetPattern | src/main/java/fr/traqueur/recipes/impl/domains/recipes/RecipeBuilder.java:178-204 | as SetPatternStep |
| Builder.RecipeBuilder.SetCookingTime | src/main/java/fr/traqueur/recipes/impl/domains/recipes/RecipeBuilder.java:209-219 | as SetCookingTimeStep |
| Builder.RecipeBuilder.SetExperience | src/main/java/fr/traqueur/recipes/impl/domains/recipes/RecipeBuilder.java:224-234 | as SetExperienceStep |
| Builder.RecipeBuilder.SetPriority | src/main/java/fr/traqueur/recipes/impl/domains/recipes/RecipeBuilder.java:241-247 | the priority is stored iff the type is set |
| Builder.RecipeBuilder.GetType | src/main/java/fr/traqueur/recipes/impl/domains/recipes/RecipeBuilder.java:252-255 | answers the builder's type |
| Builder.RecipeBuilder.Build | src/main/java/fr/traqueur/recipes/impl/domains/recipes/RecipeBuilder.java:260-275 | answers BuildRecipe of the builder's state, never the unreachable errors |
| LegacyBuilder.LegacyBuild | src/main/java/fr/traqueur/recipes/impl/RecipeBuilder.java:167-197 | build succeeds iff name, result and type are set and the ingredients, pattern and cooking time pass; every failure is an IllegalArgumentException; the recipe holds the item stack and no priority |
| LegacyBuilder.LegacyAgreesWithCurrent | src/main/java/fr/traqueur/recipes/impl/RecipeBuilder.java:167-197 | the earlier and the current builder build the same recipe, or fail with the same message, from the same state |
| LegacyBuilder.RecipeBuilder.constructor | src/main/java/fr/traqueur/recipes/impl/RecipeBuilder.java:18-28 | a new builder holds the field defaults (amount 1, no type, no ingredients) |
| LegacyBuilder.RecipeBuilder.SetName | src/main/java/fr/traqueur/recipes/impl/RecipeBuilder.java:30-37 | as SetNameStep |
| LegacyBuilder.RecipeBuilder.SetResult | src/main/java/fr/traqueur/recipes/impl/RecipeBuilder.java:39-46 | the item stack is stored iff the type is set |
| LegacyBuilder.RecipeBuilder.SetAmount | src/main/java/fr/traqueur/recipes/impl/RecipeBuilder.java:48-52 | as SetAmountStep |
| LegacyBuilder.RecipeBuilder.SetType | src/main/java/fr/traqueur/recipes/impl/RecipeBuilder.java:54-58 | as SetTypeStep |
| LegacyBuilder.RecipeBuilder.AddIngredient | src/main/java/fr/traqueur/recipes/impl/RecipeBuilder.java:60-86 | as AddIngredientStep |
| LegacyBuilder.RecipeBuilder.AddIngredients | src/main/java/fr/traqueur/recipes/api/domains/Recipe.java:54-59 | as AddAllStep |
| LegacyBuilder.RecipeBuilder.AddTag | src/main/java/fr/traqueur/recipes/api/domains/Recipe.java:66-78 | as AddTagStep |
| LegacyBuilder.RecipeBuilder.AddItem | src/main/java/fr/traqueur/recipes/api/domains/Recipe.java:98-122 | as AddItemStep |
| LegacyBuilder.RecipeBuilder.AddItemWithoutSign | src/main/java/fr/traqueur/recipes/api/domains/Recipe.java:85-90 | as AddItemWithoutSignStep |
| LegacyBuilder.RecipeBuilder.AddMaterial | src/main/java/fr/traqueur/recipes/api/domains/Recipe.java:142-144 | as AddMaterialStep |
| LegacyBuilder.RecipeBuilder.AddMaterialWithoutSign | src/main/java/fr/traqueur/recipes/api/domains/Recipe.java:129-134 | as AddMaterialWithoutSignStep |
| LegacyBuilder.RecipeBuilder.SetGroup | src/main/java/fr/traqueur/recipes/impl/RecipeBuilder.java:88-95 | as SetGroupStep |
| LegacyBuilder.RecipeBuilder.SetCategory | src/main/java/fr/traqueur/recipes/impl/RecipeBuilder.java:97-108 | as SetCategoryStep |
| LegacyBuilder.RecipeBuilder.SetPattern | src/main/java/fr/traqueur/recipes/impl/RecipeBuilder.java:110-136 | as SetPatternStep |
| LegacyBuilder.RecipeBuilder.SetCookingTime | src/main/java/fr/traqueur/recipes/impl/RecipeBuilder.java:138-148 | as SetCookingTimeStep |
| LegacyBuilder.RecipeBuilder.SetExperience | src/main/java/fr/traqueur/recipes/impl/RecipeBuilder.java:150-160 | as SetExperienceStep |
| LegacyBuilder.RecipeBuilder.GetType | src/main/java/fr/traqueur/recipes/impl/RecipeBuilder.java:162-165 | answers the builder's type |
| LegacyBuilder.RecipeBuilder.Build | src/main/java/fr/traqueur/recipes/impl/RecipeBuilder.java:167-197 | answers LegacyBuild of the builder's state |
| LegacyBuilder.ExampleSimple | test-plugin/src/main/java/fr/traqueur/testplugin/TestPlugin.java:22-28 | the shapeless example builds: one dirt for 64 diamonds |
| LegacyBuilder.RingPatternFacts | test-plugin/src/main/java/fr/traqueur/testplugin/TestPlugin.java:35-37 | the ring pattern is a valid grid holding both signs |
| LegacyBuilder.ExampleShaped | test-plugin/src/main/java/fr/traqueur/testplugin/TestPlugin.java:30-38 | the shaped example builds with the ring pattern and both ingredients |
| LegacyBuilder.ExampleComplex | test-plugin/src/main/java/fr/traqueur/testplugin/TestPlugin.java:45-51 | the example with the renamed paper builds with one loose item ingredient |
| LegacyBuilder.ExampleFurnace | test-plugin/src/main/java/fr/traqueur/testplugin/TestPlugin.java:53-60 | the furnace example builds with cooking time 10 |
| Listener.SweepChangesIff | src/main/java/fr/traqueur/recipes/impl/PrepareCraftListener.java:151-161 | a handler's loop over the registered recipes throws exactly when some check fails, and otherwise clears the result exactly when some check rejects |
| Listener.SweepKeepsRejection | src/main/java/fr/traqueur/recipes/impl/PrepareCraftListener.java:151-161 | a result cleared by one recipe stays cleared while the loop goes on, even if a later check throws |
| Listener.SimilarSlot | src/main/java/fr/traqueur/recipes/impl/PrepareCraftListener.java:134-136 | isSimilar on a slot answers the ingredient's match on the item; on an empty (null) slot an ItemsAdder ingredient answers false and every other ingredient throws |
| Listener.SignAt | src/main/java/fr/traqueur/recipes/impl/PrepareCraftListener.java:178 | the sign at a cell is the pattern character, a space read as the character U+0001, and an index past the row throws |
| Listener.DecidingIngredient | src/main/java/fr/traqueur/recipes/impl/PrepareCraftListener.java:179 | the first ingredient whose sign equals the character is found; a signless ingredient before it throws; none is found iff every ingredient has a sign and none equals the character |
| Listener.CellOk | src/main/java/fr/traqueur/recipes/impl/PrepareCraftListener.java:172-181 | an empty or AIR cell always passes; an occupied cell throws without a pattern or outside its rows or columns; otherwise the first ingredient carrying the cell's character decides it, a signless ingredient before it throws, and the cell passes when no ingredient carries the character |
| Listener.CheckGoodShapedRecipe | src/main/java/fr/traqueur/recipes/impl/PrepareCraftListener.java:169-187 | the cell loop returns what the cell-by-cell specification decides: reject at the first failing cell |
| Listener.ShapedAccepts | src/main/java/fr/traqueur/recipes/impl/PrepareCraftListener.java:169-187 | from any cell on, the shaped check accepts exactly when every cell passes |
| Listener.ShapedRejects | src/main/java/fr/traqueur/recipes/impl/PrepareCraftListener.java:169-187 | from any cell on, the shaped check rejects exactly at the first failing cell, with every earlier cell passing |
| Listener.ShapedVerdicts | src/main/java/fr/traqueur/recipes/impl/PrepareCraftListener.java:169-187 | the shaped check accepts exactly when every cell passes and rejects exactly when some cell fails after all earlier ones passed |
| Listener.EmptyCellsNeverReject | src/main/java/fr/traqueur/recipes/impl/PrepareCraftListener.java:173-174 | a grid of empty or AIR cells is never rejected, whatever the pattern |
| Listener.SpaceCellPasses | src/main/java/fr/traqueur/recipes/impl/PrepareCraftListener.java:178-181 | a cell under a space in the pattern passes when no ingredient has the sign U+0001 |
| Listener.AnyMatch | src/main/java/fr/traqueur/recipes/impl/PrepareCraftListener.java:200-203 | the stream's anyMatch is true iff some non-empty, non-AIR grid item is similar to the ingredient |
| Listener.CheckGoodShapelessRecipe | src/main/java/fr/traqueur/recipes/impl/PrepareCraftListener.java:194-213 | the shapeless check rejects exactly when some ingredient is found in no grid item |
| Listener.ExtraItemsNeverReject | src/main/java/fr/traqueur/recipes/impl/PrepareCraftListener.java:194-213 | adding items to an accepted grid never makes the shapeless check reject |
| Listener.ItemsNotConsumed | src/main/java/fr/traqueur/recipes/impl/PrepareCraftListener.java:199-203 | one item that matches every ingredient is enough, however many ingredients there are |
| Listener.CheckRegistered | src/main/java/fr/traqueur/recipes/impl/PrepareCraftListener.java:152-160 | a registered recipe is checked only when its kind matches the event's recipe class and its key equals the event's key |
| Listener.OnPrepareCraft | src/main/java/fr/traqueur/recipes/impl/PrepareCraftListener.java:142-162 | no recipe leaves the event alone; otherwise the verdicts of every registered crafting recipe are applied in list order |
| Listener.OnlySameKindAndKey | src/main/java/fr/traqueur/recipes/impl/PrepareCraftListener.java:151-161 | when no registered recipe has the event's kind and key, the event is left alone |
| Listener.SmithingMatch | src/main/java/fr/traqueur/recipes/impl/PrepareCraftListener.java:113-119 | template, base and addition are tested against ingredients 0, 1 and 2; fewer than three ingredients throws |
| Listener.OnSmithingTransform | src/main/java/fr/traqueur/recipes/impl/PrepareCraftListener.java:87-126 | no recipe, an empty or AIR result, or a trim recipe leave the event alone; any other recipe class fails the cast; else the registered transform recipes are checked in order |
| Listener.SmithingClearsIff | src/main/java/fr/traqueur/recipes/impl/PrepareCraftListener.java:109-125 | with three filled slots, the result is cleared exactly when some transform recipe with the event's key fails the positional test |
| Listener.SmeltStep | src/main/java/fr/traqueur/recipes/impl/PrepareCraftListener.java:71-80 | a recipe of another kind, or no furnace recipe for the result, never cancels |
| Listener.SmeltVerdicts | src/main/java/fr/traqueur/recipes/impl/PrepareCraftListener.java:67-80 | one verdict per registered recipe, in list order |
| Listener.OnSmelt | src/main/java/fr/traqueur/recipes/impl/PrepareCraftListener.java:57-81 | a cancelled event or an empty or AIR source is left alone; else every registered recipe's verdict is applied |
| Listener.SmeltCancelsIff | src/main/java/fr/traqueur/recipes/impl/PrepareCraftListener.java:71-80 | the smelt is cancelled exactly when some cooking recipe listed for the result has a first ingredient that does not match the source |
| RecipesApi.LoadFile | src/main/java/fr/traqueur/recipes/api/RecipesAPI.java:122-127 | a file whose top-level section does not read yields no recipe; one that reads yields what build() makes of it, of priority 0 and named by the file name with ".yml" removed |
| RecipesApi.LoadFileName | src/main/java/fr/traqueur/recipes/api/RecipesAPI.java:124 | a file "n.yml" with no other ".yml" in n holds the recipe named n |
| RecipesApi.ServerConverterKeyed | src/main/java/fr/traqueur/recipes/impl/domains/ItemRecipe.java:44-132 | a converted recipe is registered under the plugin's key for the recipe's type and name |
| RecipesApi.Register | src/main/java/fr/traqueur/recipes/api/RecipesAPI.java:166 | server.addRecipe succeeds iff conversion does; it adds the recipe's key, maps it to the converted recipe, and keeps every other entry |
| RecipesApi.Add | src/main/java/fr/traqueur/recipes/api/RecipesAPI.java:157-168 | the recipe is appended to the list first, always; it is registered only when asked, and a failed conversion throws with the server unchanged |
| RecipesApi.AddRegisters | src/main/java/fr/traqueur/recipes/api/RecipesAPI.java:162-167 | a registered add puts exactly the recipe's key into the server table |
| RecipesApi.DuplicatesKept | src/main/java/fr/traqueur/recipes/api/RecipesAPI.java:161 | adding the same recipe twice lists it twice |
| RecipesApi.Remove | src/main/java/fr/traqueur/recipes/api/RecipesAPI.java:182-185 | the first equal recipe leaves the list, its key leaves the server, and every other server entry stays |
| RecipesApi.RemoveUndoesAdd | src/main/java/fr/traqueur/recipes/api/RecipesAPI.java:157-185 | removing a recipe just added, new to both list and server, restores the state |
| RecipesApi.Unregister | src/main/java/fr/traqueur/recipes/api/RecipesAPI.java:146-150 | the list stays, no listed recipe's key stays on the server, entries of other keys stay |
| RecipesApi.RegisterEach | src/main/java/fr/traqueur/recipes/api/RecipesAPI.java:132-141 | registering all succeeds iff every recipe converts; no server entry is lost |
| RecipesApi.RegisterEachKeys | src/main/java/fr/traqueur/recipes/api/RecipesAPI.java:132-141 | when every recipe converts, the server gains exactly the listed recipes' keys |
| RecipesApi.LoadOne | src/main/java/fr/traqueur/recipes/api/RecipesAPI.java:122-127 | a file that does not read throws with nothing changed; one that does is added and registered |
| RecipesApi.LoadEachAppends | src/main/java/fr/traqueur/recipes/api/RecipesAPI.java:106-116 | when every recipe file reads and converts, the walk throws nothing and appends the files' recipes in walk order |
| RecipesApi.LoadEachRegisters | src/main/java/fr/traqueur/recipes/api/RecipesAPI.java:106-116 | when every recipe file reads and converts, the server gains exactly their keys |
| RecipesApi.OnlyRecipeFilesLoaded | src/main/java/fr/traqueur/recipes/api/RecipesAPI.java:110-111 | directories and files not ending in ".yml" are skipped |
| RecipesApi.AddConfigured | src/main/java/fr/traqueur/recipes/api/RecipesAPI.java:107-112 | the walk's first entry, the folder itself, is skipped; the rest are loaded in order |
| RecipesApi.RecipesAPI.Namespace | src/main/java/fr/traqueur/recipes/api/RecipesAPI.java:65 | the namespace is the plugin registered at construction |
| RecipesApi.RecipesAPI.State | src/main/java/fr/traqueur/recipes/api/RecipesAPI.java:191-193 | the list and the server table together |
| RecipesApi.RecipesAPI.constructor | src/main/java/fr/traqueur/recipes/api/RecipesAPI.java:60-65 | an empty list, the server as it was, and the plugin registered for keys |
| RecipesApi.RecipesAPI.AddRecipe | src/main/java/fr/traqueur/recipes/api/RecipesAPI.java:157-176 | the state becomes what Add gives, with registration off by default |
| RecipesApi.RecipesAPI.RemoveRecipe | src/main/java/fr/traqueur/recipes/api/RecipesAPI.java:182-185 | the state becomes what Remove gives |
| RecipesApi.RecipesAPI.UnregisterRecipes | src/main/java/fr/traqueur/recipes/api/RecipesAPI.java:146-150 | the state becomes what Unregister gives |
| RecipesApi.RecipesAPI.RegisterRecipes | src/main/java/fr/traqueur/recipes/api/RecipesAPI.java:132-141 | the list stays; the server and outcome are what RegisterEach gives |
| RecipesApi.RecipesAPI.GetRecipes | src/main/java/fr/traqueur/recipes/api/RecipesAPI.java:191-193 | the list itself |
| RecipesApi.RecipesAPI.LoadRecipe | src/main/java/fr/traqueur/recipes/api/RecipesAPI.java:122-127 | the state and outcome are what LoadOne gives |
| RecipesApi.RecipesAPI.AddConfiguredRecipes | src/main/java/fr/traqueur/recipes/api/RecipesAPI.java:106-116 | the state and outcome are what AddConfigured gives |
| PrioritySort.InsertPermutes | src/main/java/fr/traqueur/recipes/api/RecipeLoader.java:165 | inserting one recipe adds exactly that recipe |
| PrioritySort.InsertDescending | src/main/java/fr/traqueur/recipes/api/RecipeLoader.java:165 | inserting into a list ordered by descending priority keeps it ordered |
| PrioritySort.InsertStable | src/main/java/fr/traqueur/recipes/api/RecipeLoader.java:165 | insertion keeps the relative order of recipes of equal priority, placing the new one first among them |
| PrioritySort.SortPermutes | src/main/java/fr/traqueur/recipes/api/RecipeLoader.java:165 | the sorted list holds the same recipes, counted with multiplicity |
| PrioritySort.SortDescending | src/main/java/fr/traqueur/recipes/api/RecipeLoader.java:165 | higher priority comes first |
| PrioritySort.SortStable | src/main/java/fr/traqueur/recipes/api/RecipeLoader.java:165 | recipes of equal priority keep their load order, as List.sort guarantees |
| PrioritySort.SortKeepsLength | src/main/java/fr/traqueur/recipes/api/RecipeLoader.java:165 | sorting keeps the number of recipes |
| PrioritySort.SamePriorityUnchanged | src/main/java/fr/traqueur/recipes/api/RecipeLoader.java:165 | a list of one priority (all 0 by default) is left as loaded |
| Sequences.RemoveFirst | src/main/java/fr/traqueur/recipes/api/RecipesAPI.java:184 | List.remove drops one occurrence of a present element and leaves the list alone otherwise |
| Sequences.FirstIndex | src/main/java/fr/traqueur/recipes/api/RecipesAPI.java:184 | the index of the first occurrence |
| Sequences.RemoveFirstCuts | src/main/java/fr/traqueur/recipes/api/RecipesAPI.java:184 | the removed occurrence is the first one; the rest keep their order |
| Sequences.RemoveUndoesAppend | src/main/java/fr/traqueur/recipes/api/RecipesAPI.java:161-184 | removing a recipe just appended, new to the list, restores the list |
| Loader.FilePath | src/main/java/fr/traqueur/recipes/api/RecipeLoader.java:66 | the file's path is the given path with its trailing separators, and only those, dropped |
| Loader.FileName | src/main/java/fr/traqueur/recipes/api/RecipeLoader.java:102 | the file's name is the last path component: a separator-free suffix of the path, preceded by a separator or the start |
| Loader.Find | src/main/java/fr/traqueur/recipes/api/RecipeLoader.java:69 | an entry exists at a path iff the folder lists that path |
| Loader.FindAppend | src/main/java/fr/traqueur/recipes/api/RecipeLoader.java:71 | a new entry is found at its path only when nothing was there before |
| Loader.JarPrefix | src/main/java/fr/traqueur/recipes/api/RecipeLoader.java:117-119 | the jar path, ending in "/": kept as it is when it already ends in "/", else with one "/" appended |
| Loader.ExtractKeepsExisting | src/main/java/fr/traqueur/recipes/api/RecipeLoader.java:135-137 | extracting never overwrites a file or directory already on disk |
| Loader.ExtractAddsOnlyDefaults | src/main/java/fr/traqueur/recipes/api/RecipeLoader.java:128-137 | every file extraction adds comes from a jar entry under the prefix ending in ".yml", with its name and contents |
| Loader.ExtractAddsMissing | src/main/java/fr/traqueur/recipes/api/RecipeLoader.java:128-137 | every ".yml" jar entry under the prefix that the data folder lacks is extracted, when its parent directory exists or can be created |
| Loader.Collect | src/main/java/fr/traqueur/recipes/api/RecipeLoader.java:211-223 | the files that fail to build are skipped, so at most one recipe per file |
| Loader.CollectOnlyBuilt | src/main/java/fr/traqueur/recipes/api/RecipeLoader.java:214-216 | every collected recipe is what some file builds |
| Loader.CollectAppend | src/main/java/fr/traqueur/recipes/api/RecipeLoader.java:198-200 | collecting two lists of files appends their recipes in order |
| Loader.CollectAllThatBuild | src/main/java/fr/traqueur/recipes/api/RecipeLoader.java:211-223 | when every file builds, each file's recipe is collected, in order |
| Loader.RecipeFiles | src/main/java/fr/traqueur/recipes/api/RecipeLoader.java:193-196 | the walk's regular files ending in ".yml", and nothing else |
| Loader.FromFoldersAppend | src/main/java/fr/traqueur/recipes/api/RecipeLoader.java:155-157 | folders are loaded one after the other, in the order they were added |
| Loader.FilesAt | src/main/java/fr/traqueur/recipes/api/RecipeLoader.java:160-162 | one file per added path, in order |
| Loader.MissingFolderLoadsNothing | src/main/java/fr/traqueur/recipes/api/RecipeLoader.java:191-204 | a folder that does not exist loads nothing |
| Loader.WalkStaysInside | src/main/java/fr/traqueur/recipes/api/RecipeLoader.java:192-193 | the walk reaches only entries under the folder |
| Loader.LoadRecipeInto | src/main/java/fr/traqueur/recipes/api/RecipeLoader.java:211-223 | the recipe list gains the file's recipe, or nothing when it fails to build |
| Loader.LoadFiles | src/main/java/fr/traqueur/recipes/api/RecipeLoader.java:160-162 | the recipe list gains the recipes of the files that build, in order |
| Loader.LoadFromFolder | src/main/java/fr/traqueur/recipes/api/RecipeLoader.java:191-204 | the recipe list gains the recipes of the folder's YAML files, in walk order |
| Loader.GatherAll | src/main/java/fr/traqueur/recipes/api/RecipeLoader.java:152-162 | the folders' recipes, then the single files' recipes |
| Loader.DataFolder.constructor | src/main/java/fr/traqueur/recipes/api/RecipeLoader.java:66 | the data folder as given |
| Loader.DataFolder.Mkdirs | src/main/java/fr/traqueur/recipes/api/RecipeLoader.java:71 | mkdirs succeeds iff the folder is writable, and then creates the directory |
| Loader.RecipeLoader.constructor | src/main/java/fr/traqueur/recipes/api/RecipeLoader.java:53-56 | no folders and no files |
| Loader.RecipeLoader.ExtractDefaults | src/main/java/fr/traqueur/recipes/api/RecipeLoader.java:116-145 | without a jar nothing changes; else the disk becomes what Extract gives for the jar path ending in "/" |
| Loader.RecipeLoader.AddFolder | src/main/java/fr/traqueur/recipes/api/RecipeLoader.java:65-84 | an existing directory is added; a missing one is created and filled with defaults when possible, and is added only then; anything else is refused |
| Loader.RecipeLoader.AddFile | src/main/java/fr/traqueur/recipes/api/RecipeLoader.java:92-108 | a path is added iff it is an existing regular file ending in ".yml" |
| Loader.RecipeLoader.Load | src/main/java/fr/traqueur/recipes/api/RecipeLoader.java:151-174 | the API's list gains every recipe gathered, in descending priority, without touching the server; the count is the number gathered |
| Loader.RecipeLoader.AddAll | src/main/java/fr/traqueur/recipes/api/RecipeLoader.java:168-170 | the API's list gains the recipes in order, without registering them |
| Loader.RecipeLoader.Reload | src/main/java/fr/traqueur/recipes/api/RecipeLoader.java:181-184 | the server loses the listed recipes' keys, then the list gains the gathered recipes again, so the old ones stay listed |

## Left out

- Host types (`ItemStack`, `ItemMeta`, `PersistentDataContainer`, `Tag`, `RecipeChoice`, the native recipe classes) are reduced to plain datatypes. `ItemStack.isSimilar` is taken to mean "same material and the same metadata, any amount".
- The native recipe built by `toBukkitRecipe` is modelled only as far as the fields it selects (key, ingredients as choices, group, category, cooking time, experience); the host's constructors are not modelled.
- Base64/GZIP item serialisation (`Util.getItemStack`, `Util.fromItemStack`) is foreign I/O. It is a catalog of decodable strings; a string absent from the catalog fails to decode.
- Third-party providers (ItemsAdder, Oraxen and the `Hook` implementations) are data: a name, an enabled flag and the items known by id. Their match test is a function parameter. Hook code is not part of this model.
- A provider's item lookup ignores the player argument, which only the providers' own code reads.
- Event objects, listener registration, `getRecipesFor` queries, `runNextTick`, FoliaLib, the Updater, logging and the debug flag are left out. The listener's handlers take the few values they read from an event as parameters, and return what they change.
- `RecipesListener`, which only forwards plugin shutdown to `unregisterRecipes`, is not part of this model.
- File and jar I/O are reduced to data. The data folder is a list of entries in walk order; the jar is a list of entries; YAML files are maps from dotted path to value. `Files.walk` order is the entry order, and `mkdirs` creates only the one directory entry asked for.
- Loader.DataFolder.Mkdirs: succeeds exactly when the data folder is writable; a partial failure of a multi-level `mkdirs` is not modelled.
- The IOException branches of `addConfiguredRecipes`, `loadFromFolder` and `extractDefaultsFromJar` are not modelled, since reading is total in the model. A jar whose code source is null is the absent jar.
- TagRegistry's reflective static initialiser is replaced by a list of the declared fields as the reflection would see them.
- `experience` is a Dafny `real`, not a 32-bit float; no float rounding is modelled.
- Java `int` fields (amount, cooking time, priority) are unbounded integers; 32-bit overflow is not modelled.
- Case conversion (`toUpperCase`, `equalsIgnoreCase`) covers ASCII letters only.
- RecipeTypes.NamespacedKeyOf: the host's NamespacedKey also refuses a namespace or key holding characters outside `[a-z0-9/._-]` (a recipe name with a space, say) with an IllegalArgumentException; that check is not modelled, so such a name gets a key here. Only the lower-casing of namespace and key is modelled.
- Listener.SimilarSlot: an ingredient of a provider other than ItemsAdder is taken to throw on an empty slot, as Oraxen's does; the code of providers registered by other plugins is not part of this model.
- `getString` covers string, integer, boolean and floating-point scalars (the latter by their printed text); other YAML types read as absent.
- The `RecipeConfiguration` setters all throw `UnsupportedOperationException`; only their outcome is modelled.
- `getRecipes` returns the live list in Java; the model returns its value, so aliasing through the returned list is not modelled.
- `removeRecipe` removes by record equality. Java compares the record's array fields by reference, so the model's value equality can remove a recipe Java would not.
- RecipesApi.Register: `server.addRecipe` under a key already registered is taken to replace the entry; the host's own duplicate-key behaviour is not modelled.
- The sources mix revisions. Each file is modelled as written, and the gaps are bridged as follows:
  - the current builder calls `getItemRecipe` with a priority, which the `Recipe` interface's definition does not take; the model passes the priority through, and the legacy builder and `RecipeConfiguration` pass 0;
  - `RecipeLoader.loadRecipe` calls a two-argument `RecipeConfiguration` constructor that does not exist in this revision; the loader reads a file as the three-argument constructor does;
  - a recipe's result is a string in the current `ItemRecipe` but an `ItemStack` in the legacy builder and in `RecipeConfiguration`; the model's result is either form;
  - `Util` filters with `Hook::isEnable` as a one-argument predicate, while the `Hook` interface declares it with a plugin parameter; `ItemRecipe` calls `Hook.getItemStack`, which that interface does not declare. The model gives each provider an enabled flag and an item table.
- `setType(null)` and `setName(null)` are not modelled; the model's setters take a value.
- BaseIngredient and the older `api/domains/ItemRecipe` duplicate what is modelled, and are not part of this model.
