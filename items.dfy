/**
 * The host's item model, reduced to what the recipe code reads: an item
 * stack is a material, an amount and optional metadata; a tag is a set of
 * materials.
 */
module Items {
  import opened Wrappers

  /** A Material constant, by its upper-case enum name. */
  type Material = string

  const AIR: Material := "AIR"

  /** ItemMeta: persistent-data keys, lore, custom model data and display name. */
  datatype Meta = Meta(
    keys: set<string>,
    lore: Option<seq<string>>,
    customModelData: Option<int>,
    displayName: Option<string>)

  /** ItemStack; `meta == None` is `hasItemMeta() == false`. */
  datatype Item = Item(material: Material, amount: int, meta: Option<Meta>)

  /** Tag<Material>: isTagged(m) is membership. */
  type Tag = set<Material>

  /** `new ItemStack(material)`: one item, no metadata. */
  function Plain(material: Material): (r: Item)
    ensures r.material == material && r.amount == 1 && r.meta == None
  {
    Item(material, 1, None)
  }

  /** A grid or inventory slot that a listener skips: null, or an AIR stack. */
  predicate IsEmptySlot(slot: Option<Item>) {
    slot.None? || slot.value.material == AIR
  }

  /**
   * ItemStack.isSimilar is host code. It is taken here as "equal except for
   * the amount": same material and identical metadata.
   */
  predicate BukkitSimilar(a: Item, b: Item) {
    a.material == b.material && a.meta == b.meta
  }
}
