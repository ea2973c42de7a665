/**
 * The ingredient variants and their match predicates (`isSimilar`) and
 * native choices (`choice`). Every ingredient carries the sign given to its
 * constructor; the one-argument constructors are the variants built with
 * `sign == None`.
 */
module Ingredients {
  import opened Wrappers
  import opened Items

  datatype Ingredient =
    | MaterialIngredient(material: Material, sign: Option<char>)
    | ItemStackIngredient(item: Item, sign: Option<char>)
    | StrictItemStackIngredient(item: Item, sign: Option<char>)
    | TagIngredient(tag: Tag, sign: Option<char>)
      /** An item of a third-party provider, by id; `material` is the provider item's type. */
    | HookIngredient(provider: string, id: string, material: Material, sign: Option<char>)

  /**
   * The match test of a third-party provider's ingredient (provider name, item
   * id, candidate). It is foreign code, so every matching function takes it
   * as a parameter.
   */
  type ProviderMatch = (string, string, Item) -> bool

  /** RecipeChoice: MaterialChoice over a set of materials, or ExactChoice of one stack. */
  datatype Choice = MaterialChoice(materials: set<Material>) | ExactChoice(item: Item)

  /**
   * ItemStackIngredient.similarMeta, as written: every persistent-data key of
   * the candidate must be on the template, and BOTH the lore test and the
   * custom-model-data test require the value to be present on both sides.
   */
  predicate SimilarMeta(source: Meta, ingredient: Meta) {
    && (forall k :: k in source.keys ==> k in ingredient.keys)
    && (source.lore.Some? == ingredient.lore.Some? && source.lore.Some? && source.lore == ingredient.lore)
    && (source.customModelData.Some? == ingredient.customModelData.Some?
        && source.customModelData.Some? && source.customModelData == ingredient.customModelData)
  }

  /** ItemStackIngredient.isSimilar: the loose comparison of a candidate with the template. */
  predicate LooseMatch(template: Item, candidate: Item) {
    && candidate.material == template.material
    && candidate.amount >= template.amount
    && candidate.meta.Some? == template.meta.Some?
    && (candidate.meta.None? || SimilarMeta(candidate.meta.value, template.meta.value))
  }

  /** Ingredient.isSimilar, dispatched on the variant. */
  predicate Matches(ing: Ingredient, candidate: Item, provider: ProviderMatch) {
    match ing
    case MaterialIngredient(m, _) => candidate.material == m
    case ItemStackIngredient(t, _) => LooseMatch(t, candidate)
    case StrictItemStackIngredient(t, _) => BukkitSimilar(candidate, t)
    case TagIngredient(tag, _) => candidate.material in tag
    case HookIngredient(p, id, _, _) => provider(p, id, candidate)
  }

  /** Ingredient.choice, dispatched on the variant. */
  function ChoiceOf(ing: Ingredient): Choice {
    match ing
    case MaterialIngredient(m, _) => MaterialChoice({m})
    case ItemStackIngredient(t, _) => MaterialChoice({t.material})
    case StrictItemStackIngredient(t, _) => ExactChoice(t)
    case TagIngredient(tag, _) => MaterialChoice(tag)
    case HookIngredient(_, _, m, _) => MaterialChoice({m})
  }

  /** The stacks a native choice lets through to the listener (ExactChoice is itself `isSimilar`). */
  predicate ChoiceAdmits(c: Choice, candidate: Item) {
    match c
    case MaterialChoice(ms) => candidate.material in ms
    case ExactChoice(t) => BukkitSimilar(candidate, t)
  }

  /**
   * The native choice agrees with the match predicate: exactly for material,
   * tag and strict ingredients, and as an over-approximation for loose ones
   * (the listener then vetoes what the server let through).
   */
  lemma ChoiceAgreesWithMatch(ing: Ingredient, candidate: Item, provider: ProviderMatch)
    ensures !ing.ItemStackIngredient? && !ing.HookIngredient? ==>
              (Matches(ing, candidate, provider) <==> ChoiceAdmits(ChoiceOf(ing), candidate))
    ensures ing.ItemStackIngredient? && Matches(ing, candidate, provider) ==> ChoiceAdmits(ChoiceOf(ing), candidate)
  {
  }

  /** Material and tag ingredients look at the item's type only. */
  lemma TypeOnlyIngredients(ing: Ingredient, x: Item, y: Item, provider: ProviderMatch)
    requires ing.MaterialIngredient? || ing.TagIngredient?
    requires x.material == y.material
    ensures Matches(ing, x, provider) == Matches(ing, y, provider)
  {
  }

  /** A loose match needs the same type, at least the template's amount and agreement on having metadata. */
  lemma LooseMatchNecessary(template: Item, candidate: Item)
    requires LooseMatch(template, candidate)
    ensures candidate.material == template.material
    ensures candidate.amount >= template.amount
    ensures candidate.meta.Some? <==> template.meta.Some?
    ensures candidate.meta.Some? ==> candidate.meta.value.keys <= template.meta.value.keys
  {
  }

  /** Without metadata on either side, type and amount alone decide. */
  lemma LooseMatchWithoutMeta(template: Item, candidate: Item)
    requires template.meta.None? && candidate.meta.None?
    ensures LooseMatch(template, candidate) <==>
              candidate.material == template.material && candidate.amount >= template.amount
  {
  }

  /** A larger stack of a matching item still matches loosely. */
  lemma LooseMatchLargerStack(template: Item, candidate: Item, amount: int)
    requires LooseMatch(template, candidate) && amount >= candidate.amount
    ensures LooseMatch(template, candidate.(amount := amount))
  {
  }

  /**
   * As written, a candidate that has metadata but no lore, or no custom model
   * data, never matches loosely, whatever the template.
   */
  lemma LooseMatchNeedsLoreAndModelData(template: Item, candidate: Item)
    requires candidate.meta.Some?
    requires candidate.meta.value.lore.None? || candidate.meta.value.customModelData.None?
    ensures !LooseMatch(template, candidate)
  {
  }

  /**
   * A strict ingredient ignores the amount, so it accepts a stack smaller
   * than its template, which the loose ingredient of the same template
   * refuses; and the loose one accepts a candidate with fewer persistent-data
   * keys, which the strict one refuses. Neither implies the other.
   */
  lemma StrictAndLooseIncomparable(provider: ProviderMatch)
    ensures exists t: Item, x: Item ::
              Matches(StrictItemStackIngredient(t, None), x, provider) && !Matches(ItemStackIngredient(t, None), x, provider)
    ensures exists t: Item, x: Item ::
              Matches(ItemStackIngredient(t, None), x, provider) && !Matches(StrictItemStackIngredient(t, None), x, provider)
  {
    var t := Item("DIAMOND", 2, None);
    var x := Item("DIAMOND", 1, None);
    assert Matches(StrictItemStackIngredient(t, None), x, provider) && !Matches(ItemStackIngredient(t, None), x, provider);
    var meta := Meta({"id", "level"}, Some(["magic"]), Some(7), None);
    var t' := Item("PAPER", 1, Some(meta));
    var x' := Item("PAPER", 1, Some(meta.(keys := {"id"})));
    assert Matches(ItemStackIngredient(t', None), x', provider) && !Matches(StrictItemStackIngredient(t', None), x', provider);
  }
}
