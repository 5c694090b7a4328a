/** Recipe data as the chemistry station sees it, the ID filters derived from
    it, and the slot state that one application of a recipe produces. */
module Filters {

  datatype Option<+T> = None | Some(value: T)

  /** An item, known to filters by its string ID. */
  datatype Item = Item(id: string)

  /** One ingredient of a recipe: the items any of which may fill it. */
  datatype Ingredient = Ingredient(items: seq<Item>)

  /** A station recipe. Its ingredient list may be missing (a null list in the host). */
  datatype Recipe = Recipe(ingredients: Option<seq<Ingredient>>)

  /** An item-ID filter: the IDs it lists and whether it admits (whitelist) or rejects them. */
  datatype Filter = Filter(ids: seq<string>, isWhitelist: bool)

  /** An ingredient slot is represented by its list of active filters. */
  type Slot = seq<Filter>

  function Min(a: int, b: int): (r: int)
    ensures r <= a && r <= b && (r == a || r == b)
  {
    if a < b then a else b
  }

  /** The IDs of `items` in order, each appended after the ones before it. */
  function ItemIds(items: seq<Item>): (r: seq<string>)
    ensures |r| == |items|
  {
    if items == [] then [] else ItemIds(items[..|items| - 1]) + [items[|items| - 1].id]
  }

  /** `ItemIds` lists exactly the IDs of the items, position by position. */
  lemma {:induction false} ItemIdsAt(items: seq<Item>)
    ensures |ItemIds(items)| == |items|
    ensures forall k :: 0 <= k < |items| ==> ItemIds(items)[k] == items[k].id
  {
    if items != [] {
      ItemIdsAt(items[..|items| - 1]);
    }
  }

  /** Builds the ID list of one ingredient's items, one item at a time. */
  method CollectIds(items: seq<Item>) returns (ids: seq<string>)
    ensures ids == ItemIds(items)
    ensures |ids| == |items| && forall k :: 0 <= k < |items| ==> ids[k] == items[k].id
  {
    ids := [];
    var k := 0;
    while k < |items|
      invariant 0 <= k <= |items|
      invariant ids == ItemIds(items[..k])
    {
      assert items[..k + 1][..k] == items[..k];
      ids := ids + [items[k].id];
      k := k + 1;
    }
    assert items[..k] == items;
    ItemIdsAt(items);
  }

  /** The whitelist filter that admits exactly the items of `ing`. */
  function WhitelistFor(ing: Ingredient): (r: Filter)
  {
    Filter(ItemIds(ing.items), true)
  }

  /** The first pass: every slot's filter list emptied. */
  function Cleared(slots: seq<Slot>): (r: seq<Slot>)
    ensures |r| == |slots|
    ensures forall i :: 0 <= i < |r| ==> r[i] == []
  {
    seq(|slots|, i => [])
  }

  /** The second pass after its first `n` steps: slot `i < n` has had the
      whitelist filter of ingredient `i` appended to its list. */
  function Refill(slots: seq<Slot>, ings: seq<Ingredient>, n: nat): (r: seq<Slot>)
    requires n <= |slots| && n <= |ings|
    ensures |r| == |slots|
  {
    if n == 0 then slots
    else
      var s := Refill(slots, ings, n - 1);
      s[n - 1 := s[n - 1] + [WhitelistFor(ings[n - 1])]]
  }

  /** The slot state after applying ingredient list `ings`: clear every slot,
      then append one filter to each slot that has a matching ingredient. */
  function Applied(slots: seq<Slot>, ings: seq<Ingredient>): (r: seq<Slot>)
    ensures |r| == |slots|
  {
    Refill(Cleared(slots), ings, Min(|ings|, |slots|))
  }

  /** The slot state after applying `recipe`, including the null guard: no
      recipe, or no ingredient list, leaves the slots as they were. */
  function Apply(slots: seq<Slot>, recipe: Option<Recipe>): (r: seq<Slot>)
    ensures |r| == |slots|
    ensures recipe.None? || recipe.value.ingredients.None? ==> r == slots
  {
    match recipe
    case Some(Recipe(Some(ings))) => Applied(slots, ings)
    case _ => slots
  }

  /** The first `n` steps of the second pass touch only the first `n` slots,
      each by one appended filter. */
  lemma {:induction false} RefillAt(slots: seq<Slot>, ings: seq<Ingredient>, n: nat, i: nat)
    requires n <= |slots| && n <= |ings| && i < |slots|
    ensures Refill(slots, ings, n)[i] == if i < n then slots[i] + [WhitelistFor(ings[i])] else slots[i]
  {
    if n > 0 {
      RefillAt(slots, ings, n - 1, i);
    }
  }

  /** After an application, the number of slots is unchanged, each slot with a
      matching ingredient holds exactly that ingredient's whitelist filter,
      and every other slot is empty. */
  lemma AppliedShape(slots: seq<Slot>, ings: seq<Ingredient>)
    ensures |Applied(slots, ings)| == |slots|
    ensures forall i :: 0 <= i < |slots| ==>
      Applied(slots, ings)[i] == if i < |ings| then [WhitelistFor(ings[i])] else []
  {
    forall i | 0 <= i < |slots|
      ensures Applied(slots, ings)[i] == if i < |ings| then [WhitelistFor(ings[i])] else []
    {
      RefillAt(Cleared(slots), ings, Min(|ings|, |slots|), i);
    }
  }

  /** The filter installed on a leading slot is a whitelist whose ID list is
      the IDs of the ingredient's items, in order. */
  lemma LeadingSlotFilter(slots: seq<Slot>, ings: seq<Ingredient>, i: nat)
    requires i < |slots| && i < |ings|
    ensures |Applied(slots, ings)[i]| == 1
    ensures Applied(slots, ings)[i][0].isWhitelist
    ensures |Applied(slots, ings)[i][0].ids| == |ings[i].items|
    ensures forall k :: 0 <= k < |ings[i].items| ==>
      Applied(slots, ings)[i][0].ids[k] == ings[i].items[k].id
  {
    AppliedShape(slots, ings);
    ItemIdsAt(ings[i].items);
  }

  /** Slots at or beyond the ingredient count end up with no filters. */
  lemma TrailingSlotsEmpty(slots: seq<Slot>, ings: seq<Ingredient>, i: nat)
    requires |ings| <= i < |slots|
    ensures Applied(slots, ings)[i] == []
  {
    AppliedShape(slots, ings);
  }

  /** The result does not depend on what the slots held before, only on how many there are. */
  lemma AppliedIgnoresPriorState(s: seq<Slot>, t: seq<Slot>, ings: seq<Ingredient>)
    requires |s| == |t|
    ensures Applied(s, ings) == Applied(t, ings)
  {
    AppliedShape(s, ings);
    AppliedShape(t, ings);
  }

  /** Ingredients beyond the slot count have no effect. */
  lemma ExtraIngredientsIgnored(slots: seq<Slot>, ings: seq<Ingredient>)
    requires |slots| <= |ings|
    ensures Applied(slots, ings) == Applied(slots, ings[..|slots|])
  {
    AppliedShape(slots, ings);
    AppliedShape(slots, ings[..|slots|]);
  }

  /** Applying the same ingredient list twice gives the state of applying it once. */
  lemma AppliedIdempotent(slots: seq<Slot>, ings: seq<Ingredient>)
    ensures Applied(Applied(slots, ings), ings) == Applied(slots, ings)
  {
    AppliedShape(slots, ings);
    AppliedIgnoresPriorState(Applied(slots, ings), slots, ings);
  }

  /** Applying the same recipe twice, null guard included, gives the state of applying it once. */
  lemma ApplyIdempotent(slots: seq<Slot>, recipe: Option<Recipe>)
    ensures Apply(Apply(slots, recipe), recipe) == Apply(slots, recipe)
  {
    if recipe.Some? && recipe.value.ingredients.Some? {
      AppliedIdempotent(slots, recipe.value.ingredients.value);
    }
  }

  /** A recipe with an empty ingredient list clears every slot. */
  lemma EmptyRecipeClearsAll(slots: seq<Slot>)
    ensures Apply(slots, Some(Recipe(Some([])))) == Cleared(slots)
  {
    AppliedShape(slots, []);
  }
}
