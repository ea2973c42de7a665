/**
 * Third-party item providers (ItemsAdder, Oraxen, and any hook a plugin
 * adds). A provider is reduced to its plugin name, whether that plugin is
 * enabled, and the items it knows by id. Every parser resolves an unknown
 * prefix through the same lookup: the first enabled provider whose name
 * equals the prefix, ignoring case.
 */
module Hooks {
  import opened Wrappers
  import opened JavaStrings
  import opened Items
  import opened Ingredients

  datatype Hook = Hook(name: string, enabled: bool, items: map<string, Item>)

  /** The two filters of the lookup: `isEnable` and `getPluginName().equalsIgnoreCase(prefix)`. */
  predicate Selectable(h: Hook, prefix: string) {
    h.enabled && EqualsIgnoreCase(h.name, prefix)
  }

  /** The position `findFirst` stops at, if any. */
  function FindHookIndex(hooks: seq<Hook>, prefix: string): (r: Option<nat>)
    ensures r.Some? ==> r.value < |hooks| && Selectable(hooks[r.value], prefix)
    ensures r.Some? ==> forall j :: 0 <= j < r.value ==> !Selectable(hooks[j], prefix)
    ensures r.None? <==> forall j :: 0 <= j < |hooks| ==> !Selectable(hooks[j], prefix)
  {
    if |hooks| == 0 then None
    else if Selectable(hooks[0], prefix) then Some(0)
    else match FindHookIndex(hooks[1..], prefix)
      case None => None
      case Some(i) => Some(i + 1)
  }

  /** stream().filter(isEnable).filter(equalsIgnoreCase(prefix)).findFirst() */
  function FindHook(hooks: seq<Hook>, prefix: string): (r: Option<Hook>)
    ensures r.Some? <==> exists j :: 0 <= j < |hooks| && Selectable(hooks[j], prefix)
    ensures r.Some? ==> Selectable(r.value, prefix) && r.value in hooks
  {
    match FindHookIndex(hooks, prefix)
    case None => None
    case Some(i) => Some(hooks[i])
  }

  /** The prefix is compared ignoring case: two prefixes with the same upper case find the same provider. */
  lemma {:induction false} FindHookIgnoresCase(hooks: seq<Hook>, p: string, q: string)
    requires Upper(p) == Upper(q)
    ensures FindHook(hooks, p) == FindHook(hooks, q)
    ensures FindHookIndex(hooks, p) == FindHookIndex(hooks, q)
    decreases |hooks|
  {
    if |hooks| > 0 {
      EqualsIgnoreCaseIffUpper(hooks[0].name, p);
      EqualsIgnoreCaseIffUpper(hooks[0].name, q);
      assert Selectable(hooks[0], p) == Selectable(hooks[0], q);
      FindHookIgnoresCase(hooks[1..], p, q);
    }
  }

  /** A disabled provider is never chosen, wherever it stands in the list. */
  lemma {:induction false} FindHookSkipsDisabled(before: seq<Hook>, h: Hook, after: seq<Hook>, prefix: string)
    requires !h.enabled
    ensures FindHook(before + [h] + after, prefix) == FindHook(before + after, prefix)
    decreases |before|
  {
    if |before| == 0 {
      assert before + [h] + after == [h] + after;
      assert ([h] + after)[1..] == after;
      assert before + after == after;
    } else {
      var s, t := before + [h] + after, before + after;
      assert s[0] == t[0] == before[0];
      assert s[1..] == before[1..] + [h] + after;
      assert t[1..] == before[1..] + after;
      FindHookSkipsDisabled(before[1..], h, after, prefix);
      if !Selectable(before[0], prefix) {
        FindHookIndexShift(s);
        FindHookIndexShift(t);
      }
    }
  }

  /** Helper for the step past an unselected head. */
  lemma FindHookIndexShift(s: seq<Hook>)
    requires |s| > 0
    ensures forall prefix :: !Selectable(s[0], prefix) ==> FindHook(s, prefix) == FindHook(s[1..], prefix)
  {
    forall prefix | !Selectable(s[0], prefix)
      ensures FindHook(s, prefix) == FindHook(s[1..], prefix)
    {
      match FindHookIndex(s[1..], prefix)
      case None =>
      case Some(i) => assert s[i + 1] == s[1..][i];
    }
  }

  /** Hook.getIngredient(id, sign): the provider's ingredient, or an exception for an unknown id. */
  function GetIngredient(h: Hook, id: string, sign: Option<char>): (r: Result<Ingredient>)
    ensures r.Ok? <==> id in h.items
    ensures r.Ok? ==> r.value == HookIngredient(h.name, id, h.items[id].material, sign)
  {
    if id in h.items then Ok(HookIngredient(h.name, id, h.items[id].material, sign))
    else Err(Invalid("The item " + id + " is not registered in " + h.name + "."))
  }

  /** Hook.getItemStack(id): the provider's item, or an exception for an unknown id. */
  function GetItemStack(h: Hook, id: string): (r: Result<Item>)
    ensures r.Ok? <==> id in h.items
    ensures r.Ok? ==> r.value == h.items[id]
  {
    if id in h.items then Ok(h.items[id])
    else Err(Invalid("The item " + id + " is not registered in " + h.name + "."))
  }

  /** An ingredient from the provider chosen by `prefix`, or "The data ... isn't valid." when none is. */
  function HookIngredientFor(hooks: seq<Hook>, prefix: string, id: string, sign: Option<char>): (r: Result<Ingredient>)
    ensures FindHook(hooks, prefix).None? ==> r.Err? && r.error.Invalid?
    ensures r.Ok? <==> FindHook(hooks, prefix).Some? && id in FindHook(hooks, prefix).value.items
    ensures r.Ok? ==> r.value.HookIngredient? && r.value.sign == sign && r.value.id == id
    ensures r.Ok? ==> EqualsIgnoreCase(r.value.provider, prefix)
  {
    match FindHook(hooks, prefix)
    case None => Err(Invalid("The data " + prefix + " isn't valid."))
    case Some(h) => GetIngredient(h, id, sign)
  }

  /** An item from the provider chosen by `prefix`, or an exception when there is none. */
  function HookItemFor(hooks: seq<Hook>, prefix: string, id: string): (r: Result<Item>)
    ensures FindHook(hooks, prefix).None? ==> r.Err? && r.error.Invalid?
    ensures r.Ok? <==> FindHook(hooks, prefix).Some? && id in FindHook(hooks, prefix).value.items
    ensures r.Ok? ==> r.value == FindHook(hooks, prefix).value.items[id]
  {
    match FindHook(hooks, prefix)
    case None => Err(Invalid("The data " + prefix + " isn't valid."))
    case Some(h) => GetItemStack(h, id)
  }
}
