# BetterChemStations: recipe-to-slot filter synchronisation

BetterChemStations is a mod for the game Schedule I. It keeps the
ingredient-slot filters of a chemistry station in step with the recipe
selected in the station's configuration. When a recipe is applied, every
slot's filter list is cleared. Then each slot that has a matching
ingredient gets one whitelist item-ID filter listing that ingredient's
items. The mod applies the recipe at four moments:

- when a station is created (the `Awake` hook);
- when a station configuration is constructed (which also registers a
  recipe-changed listener);
- on every later recipe change, through that listener;
- once more, after a fixed delay, when the configuration or its recipe was
  not yet available at creation.

This Dafny project models that logic and proves its properties.

- `filters.dfy`, module `Filters`: the recipe data (`Item`, `Ingredient`,
  `Recipe`), the `Filter` value and a `Slot` as a list of filters. It also
  holds the specification of one application: `Cleared` is the first pass,
  `Refill` the second pass (each step appends one filter, as `AddFilter` is
  assumed to do), `Applied` both passes, and `Apply` adds the null guard.
  `WhitelistFor` is the filter built for one ingredient (Core.cs:97-100):
  a whitelist of its item IDs. The lemmas
  state the promised slot state: exact contents, empty trailing slots,
  unchanged slot count, ignored extra ingredients, independence from the
  previous state, and idempotence. `CollectIds` is the loop that builds an
  ingredient's ID list.
- `stations.dfy`, module `Stations`: the classes `Station` (a fixed
  `array<Slot>`, the ghost flag and the configuration attached so far) and
  `Configuration` (its station, the selected recipe, and the listener list
  of its recipe-changed event, recorded as the stations the listeners apply
  to). `ChemStationMod` is the mod's global state: the queue of pending
  one-shot re-checks (station, delay), plus ghost records of every
  filter-application call and of the stations created and re-checked. Its
  invariant `Valid()` is the retry bound: for each station, pending plus
  completed re-checks never exceed the number of times it was created.
  Every method that changes the queue keeps it. `StartDelayedFilterApplication`
  may only queue a re-check for a creation that has none yet; in the source
  its only callers are the two creation branches (Core.cs:279, 286).
  `GetStationConfiguration`, `GetRecipeFromConfig` and `IsGhost` are plain
  accessors. `RecheckApplies` is the test the delayed re-check makes before
  applying (Core.cs:190-198): a configuration is present, it has a recipe,
  and the station is not a ghost.
- `scenarios.dfy`, module `Scenarios`: client methods. Each one builds
  stations and drives the mod through a situation: immediate application,
  retry after a late configuration, giving up, recipe changes, and a ghost
  station's listener. Each states the final slot contents, proved from the
  contracts.

In these places the code's behaviour is easy to misread; the model follows the code:

- The recipe-changed listener does not check the ghost flag. A ghost
  station's slots are rewritten on every change (`GhostListenerScenario`).
- A change to no recipe reaches the null guard and leaves the slots as they
  were. It does not clear them.
- Every application clears all slots, so slots beyond the ingredient count
  end up empty. They do not keep their earlier filters.
- The two retry delays are not an escalation. Creation picks one of them:
  2.0 when the configuration has no recipe, 3.0 when there is no
  configuration. The re-check never queues another.
- Binding (listener registration) happens when the configuration is
  constructed. It does not depend on the creation hook or the re-check.

## Model

| member | source | states |
|---|---|---|
| `Filters.ItemIds` | BetterChemStations/Core.cs:91-95 | The ID list of an ingredient has exactly one entry per item. |
| `Filters.ItemIdsAt` | BetterChemStations/Core.cs:91-95 | The ID list built for an ingredient has one entry per item, and entry k is the ID of item k. |
| `Filters.CollectIds` | BetterChemStations/Core.cs:91-95 | The loop returns the ID list of the ingredient's items in order, the same length as the item list. |
| `Filters.Cleared` | BetterChemStations/Core.cs:72-85 | The first pass keeps the number of slots and leaves every slot with an empty filter list. |
| `Filters.Refill` | BetterChemStations/Core.cs:87-100 | The second pass never changes the number of slots: it only writes existing slots. |
| `Filters.RefillAt` | BetterChemStations/Core.cs:87-100 | After n steps of the second pass, slot i < n has exactly one filter appended (ingredient i's whitelist), and every other slot is untouched. |
| `Filters.Applied` | BetterChemStations/Core.cs:72-100 | Both passes together keep the number of slots; `AppliedShape` gives each slot's contents. |
| `Filters.Apply` | BetterChemStations/Core.cs:61-65 | A missing recipe or a missing ingredient list leaves every slot unchanged, and the slot count is always preserved. |
| `Filters.AppliedShape` | BetterChemStations/Core.cs:72-100 | After an application the slot count is unchanged. Slot i < min(ingredients, slots) holds exactly ingredient i's whitelist filter. Every other slot is empty. |
| `Filters.LeadingSlotFilter` | BetterChemStations/Core.cs:87-100 | A leading slot holds one filter. That filter is a whitelist, and its ID list is the IDs of the ingredient's items, in order. |
| `Filters.TrailingSlotsEmpty` | BetterChemStations/Core.cs:72-87 | A slot at or beyond the ingredient count has an empty filter list after an application. |
| `Filters.AppliedIgnoresPriorState` | BetterChemStations/Core.cs:72-100 | Two slot arrays of the same size end up identical after applying the same ingredients, whatever they held before. |
| `Filters.ExtraIngredientsIgnored` | BetterChemStations/Core.cs:87 | Ingredients beyond the slot count have no effect on the result. |
| `Filters.AppliedIdempotent` | BetterChemStations/Core.cs:72-100 | Applying the same ingredient list twice gives the same slots as applying it once. |
| `Filters.ApplyIdempotent` | BetterChemStations/Core.cs:61-100 | Applying the same recipe twice, null guard included, gives the same slots as applying it once. |
| `Filters.EmptyRecipeClearsAll` | BetterChemStations/Core.cs:72-87 | A recipe with an empty ingredient list leaves every slot with an empty filter list. |
| `Stations.IsGhost` | BetterChemStations/Core.cs:152-168 | Plain accessor for the ghost flag; the reflection miss is dropped (see Left out). A missing station reads as not a ghost, as the caught lookup on a null instance returns false. |
| `Stations.GetStationConfiguration` | BetterChemStations/Core.cs:112-131 | Plain accessor: the configuration attached to the station, or none; the reflection miss is dropped (see Left out). |
| `Stations.GetRecipeFromConfig` | BetterChemStations/Core.cs:134-149 | A missing configuration gives no recipe (the null check); otherwise the configuration's selected recipe. |
| `Stations.ChemStationMod.Valid` | BetterChemStations/Core.cs:171-212 | The retry bound: per station, as a multiset, pending plus completed re-checks are at most the creations so far. Re-checks are queued only by creation and the re-check never queues another. It implies that the pending and completed re-checks together number at most the creations. |
| `Stations.ChemStationMod.ApplyRecipeFilters` | BetterChemStations/Core.cs:59-109 | With a station present, the new slot array is `Apply` of the old one. The call is recorded once in the ghost call log `applies`. Nothing else changes, and the null station, recipe or ingredient list changes nothing. |
| `Stations.ChemStationMod.StartDelayedFilterApplication` | BetterChemStations/Core.cs:171-174 | Exactly one task (station, delay) is appended to the pending queue, and the retry bound is kept. |
| `Stations.ChemStationMod.DelayedFilterApplication` | BetterChemStations/Core.cs:177-212 | The configuration and recipe are read afresh. Filters are applied once exactly when the configuration is present, the recipe is present and the station is not a ghost; otherwise the slots and the log are unchanged. The queue is not touched, so nothing further is scheduled. |
| `Stations.ChemStationMod.ResumePending` | BetterChemStations/Core.cs:173-212 | The resumed task leaves the queue and no task is added; its station is counted as re-checked, the retry bound is kept, and the slots and log change exactly as one run of the re-check body says. |
| `Stations.ChemStationMod.OnStationAwake` | BetterChemStations/Core.cs:249-293 | A ghost gets no application and no task. A configuration with a recipe gets one immediate application and no task. A configuration without a recipe gets one task at delay 2.0 and no application. No configuration gets one task at delay 3.0 and no application. |
| `Stations.ChemStationMod.OnConfigurationConstructed` | BetterChemStations/Core.cs:219-243 | One listener for the configuration's station is registered. The current recipe is applied once exactly when it is present and the station is not a ghost; otherwise there is no application. |
| `Stations.ChemStationMod.ChangeRecipe` | BetterChemStations/Core.cs:224-228 | The new recipe is selected. Each registered listener runs in order and applies it to its station with no ghost check, so each listed station's slots become `Apply` of their previous state, even with duplicate or shared registrations. |
| `Scenarios.SaltWaterApplied` | BetterChemStations/Core.cs:87-100 | For any three slots, the water / salt-or-rock-salt recipe gives whitelist "water" and whitelist "salt","rock_salt" in the first two slots and leaves the third empty. |
| `Scenarios.ImmediateScenario` | BetterChemStations/Core.cs:265-274 | A station created with its configuration and recipe present is filtered at once and queues nothing. |
| `Scenarios.RetryScenario` | BetterChemStations/Core.cs:282-287 | A station created before its configuration queues a re-check at delay 3.0. After the configuration arrives and the re-check runs, it holds the same filters as the immediate case and nothing is queued. The call log shows the re-check itself applied the recipe, as the second call after the one made at construction. |
| `Scenarios.GiveUpScenario` | BetterChemStations/Core.cs:189-194 | A re-check that still finds no configuration applies nothing (the returned call log is empty), leaves the slots empty and queues no third attempt. |
| `Scenarios.ChangeScenario` | BetterChemStations/Core.cs:224-228 | A change to no recipe leaves the salt-water filters in place (the null guard, not a clear-all). A later change to an empty ingredient list empties every slot. |
| `Scenarios.GhostListenerScenario` | BetterChemStations/Core.cs:224-237 | A ghost station gets no initial application at binding, but a later recipe change fills its slots. |

## Left out

- Preferences, debug mode and all logging (Core.cs:20-53 and every log call). Apart from the fault noted under exceptions below, they have no effect on slot state. The recipe title and the ingredient's display item are used only in log messages, so they are not modelled.
- Harmony patch registration and the patch attributes. This is host injection machinery. The two postfixes are methods that the host's events call.
- Stations.ChemStationMod.ApplyRecipeFilters: assumes the slot's private filter list is always found. The source skips clearing a slot whose list the reflection lookup misses (Core.cs:78-84).
- The reflection failure branches of `GetStationConfiguration` and `IsGhost` are not modelled; the two are plain accessors. `IsGhost` of a missing station is false, as the source's caught lookup on a null instance returns.
- The configuration's recipe field is assumed present. In the source a missing field makes the construction postfix throw before registering (Core.cs:224). It also makes the recipe read null (Core.cs:141, 197, 231, 268).
- Exceptions and their catch blocks (Core.cs:105-108, 126-130, 144-148, 163-166, 208-211, 239-242, 289-292). They come from host calls that cannot be seen. A fault part-way through a pass would leave the slots in an unspecified state. One such fault: the debug message at Core.cs:102 is built even with debug mode off and reads `ingredient.Item`; if that throws, the second pass ends after slot i.
- Real time and coroutines. A delay is a recorded value on a queued task. The host chooses which pending task resumes (`ResumePending(k)`), so ordering by elapsed time is not modelled. Floating-point timing is out of scope.
- Network replication. Its only effect is a configuration or recipe that appears or changes between events. Clients model that by assigning `Station.config` and calling `ChangeRecipe` directly.
- `slot.AddFilter` and the `ItemFilter_ID` constructor (Core.cs:97-100) are host code whose bodies are not shown. The model assumes `AddFilter` appends the filter to the same list the first pass cleared (Core.cs:78-83), and that the filter's ID list is `filterItems`.
- How an item-ID filter admits or rejects items. The model keeps only its ID list and its whitelist flag.
