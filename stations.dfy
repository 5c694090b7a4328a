/** Chemistry stations, their configurations, and the mod's reactions to the
    host's events: station creation, configuration construction, recipe
    changes and the resumption of a delayed re-check. */
module Stations {
  import opened Filters

  /** A chemistry station: a fixed array of ingredient slots, the host's
      ghost (placement preview) flag, and the configuration the host has
      attached so far, if any. */
  class Station {
    const slots: array<Slot>
    var isGhost: bool
    var config: Configuration?

    constructor (slotCount: nat, isGhost: bool)
      ensures slots.Length == slotCount && fresh(slots)
      ensures forall i :: 0 <= i < slotCount ==> slots[i] == []
      ensures this.isGhost == isGhost && config == null
    {
      slots := new Slot[slotCount](_ => []);
      this.isGhost := isGhost;
      config := null;
    }
  }

  /** A station configuration: the station it belongs to, its selected
      recipe, and the listeners registered on its recipe-changed event,
      each recorded as the station it applies filters to. */
  class Configuration {
    const station: Station?
    var selected: Option<Recipe>
    var listeners: seq<Station?>

    constructor (station: Station?, selected: Option<Recipe>)
      ensures this.station == station && this.selected == selected && listeners == []
    {
      this.station := station;
      this.selected := selected;
      listeners := [];
    }
  }

  /** A pending one-shot re-check: the station and the delay it waits for. */
  datatype Task = Task(station: Station, delay: real)

  /** One call of the filter application, with its arguments. */
  datatype Call = Call(station: Station?, recipe: Option<Recipe>)

  /** Delay before re-checking a station whose configuration has no recipe yet. */
  const RecipeRetryDelay: real := 2.0

  /** Delay before re-checking a station that has no configuration yet. */
  const ConfigRetryDelay: real := 3.0

  /** The ghost flag; a missing station reads as not a ghost. */
  function IsGhost(station: Station?): (r: bool)
    reads station
    ensures station == null ==> !r
    ensures station != null ==> r == station.isGhost
  {
    station != null && station.isGhost
  }

  /** The configuration the host has attached to `station`, if any. */
  function GetStationConfiguration(station: Station): (r: Configuration?)
    reads station
    ensures r == station.config
  {
    station.config
  }

  /** The selected recipe; a missing configuration has none. */
  function GetRecipeFromConfig(config: Configuration?): (r: Option<Recipe>)
    reads config
    ensures config == null ==> r.None?
    ensures config != null ==> r == config.selected
  {
    if config == null then None else config.selected
  }

  /** A delayed re-check of `station` applies filters exactly when the
      configuration is now present, it has a recipe, and the station is not a ghost. */
  predicate RecheckApplies(station: Station)
    reads station, station.config
  {
    station.config != null && station.config.selected.Some? && !station.isGhost
  }

  /** The stations that the pending tasks will re-check, in queue order. */
  ghost function TaskStations(tasks: seq<Task>): (r: seq<Station>)
    ensures |r| == |tasks|
  {
    seq(|tasks|, i requires 0 <= i < |tasks| => tasks[i].station)
  }

  /** Queueing a re-check for a creation that has none keeps the retry bound. */
  lemma EnqueueKeepsBound(tasks: seq<Task>, rechecked: multiset<Station>, awoken: multiset<Station>, t: Task)
    requires multiset(TaskStations(tasks)) + rechecked + multiset{t.station} <= awoken
    ensures multiset(TaskStations(tasks + [t])) + rechecked <= awoken
  {
    assert TaskStations(tasks + [t]) == TaskStations(tasks) + [t.station];
  }

  /** Removing the task at `k` removes one occurrence of its station. */
  lemma TaskStationsRemove(tasks: seq<Task>, k: nat)
    requires k < |tasks|
    ensures multiset(TaskStations(tasks[..k] + tasks[k + 1..])) + multiset{tasks[k].station}
         == multiset(TaskStations(tasks))
  {
    var s := TaskStations(tasks);
    assert TaskStations(tasks[..k] + tasks[k + 1..]) == s[..k] + s[k + 1..];
    assert s == s[..k] + [s[k]] + s[k + 1..];
  }

  /** The calls that running `listeners` in order makes for `recipe`. */
  ghost function Calls(listeners: seq<Station?>, recipe: Option<Recipe>): (r: seq<Call>)
  {
    seq(|listeners|, j requires 0 <= j < |listeners| => Call(listeners[j], recipe))
  }

  /** The mod's global state: the pending re-checks started by station
      creation, and ghost records of every filter application and of the
      stations created and re-checked so far. */
  class ChemStationMod {
    var pending: seq<Task>
    ghost var applies: seq<Call>
    ghost var awoken: multiset<Station>
    ghost var rechecked: multiset<Station>

    /** Each creation leads to at most one re-check, pending or done. */
    ghost predicate Valid()
      reads this`pending, this`rechecked, this`awoken
      ensures Valid() ==> |pending| + |rechecked| <= |awoken|
    {
      var counted := multiset(TaskStations(pending)) + rechecked;
      assert counted <= awoken ==> awoken == counted + (awoken - counted);
      counted <= awoken
    }

    constructor ()
      ensures Valid()
      ensures pending == [] && applies == [] && awoken == multiset{} && rechecked == multiset{}
    {
      pending := [];
      applies := [];
      awoken := multiset{};
      rechecked := multiset{};
    }

    /** Clears every slot of `station`, then gives each slot that has a
        matching ingredient a whitelist filter of that ingredient's item IDs.
        A missing station, recipe or ingredient list changes nothing. */
    method ApplyRecipeFilters(station: Station?, recipe: Option<Recipe>)
      modifies this`applies, if station == null then {} else {station.slots}
      ensures applies == old(applies) + [Call(station, recipe)]
      ensures station != null ==> station.slots[..] == Apply(old(station.slots[..]), recipe)
    {
      applies := applies + [Call(station, recipe)];
      if station == null || recipe.None? || recipe.value.ingredients.None? {
        return;
      }
      var ings := recipe.value.ingredients.value;
      var a := station.slots;
      var i := 0;
      while i < a.Length
        invariant 0 <= i <= a.Length
        invariant applies == old(applies) + [Call(station, recipe)]
        invariant forall j :: 0 <= j < i ==> a[j] == []
        invariant forall j :: i <= j < a.Length ==> a[j] == old(a[j])
      {
        a[i] := [];
        i := i + 1;
      }
      ghost var cleared := a[..];
      assert cleared == Cleared(old(a[..]));
      i := 0;
      while i < |ings| && i < a.Length
        invariant 0 <= i <= |ings| && i <= a.Length
        invariant applies == old(applies) + [Call(station, recipe)]
        invariant a[..] == Refill(cleared, ings, i)
      {
        var filterItems := CollectIds(ings[i].items);
        a[i] := a[i] + [Filter(filterItems, true)];
        i := i + 1;
      }
    }

    /** Queues a one-shot re-check of `station` after `delay`, for a
        creation of `station` that has no re-check yet. */
    method StartDelayedFilterApplication(station: Station, delay: real)
      requires multiset(TaskStations(pending)) + rechecked + multiset{station} <= awoken
      modifies this`pending
      ensures Valid()
      ensures pending == old(pending) + [Task(station, delay)]
    {
      EnqueueKeepsBound(pending, rechecked, awoken, Task(station, delay));
      pending := pending + [Task(station, delay)];
    }

    /** The body of a delayed re-check of `station`, run once its delay has
        passed. The configuration and recipe are read afresh; filters are
        applied only if both are present and the station is not a ghost.
        Nothing new is queued. */
    method DelayedFilterApplication(station: Station, delay: real)
      modifies this`applies, station.slots
      ensures RecheckApplies(station) ==> applies == old(applies) + [Call(station, station.config.selected)]
      ensures RecheckApplies(station) ==> station.slots[..] == Apply(old(station.slots[..]), station.config.selected)
      ensures !RecheckApplies(station) ==> applies == old(applies) && station.slots[..] == old(station.slots[..])
    {
      var config := GetStationConfiguration(station);
      if config == null {
        return;
      }
      var recipe := config.selected;
      if recipe.Some? && !IsGhost(station) {
        ApplyRecipeFilters(station, recipe);
      }
    }

    /** The host resumes pending re-check `k`: the task leaves the queue and
        its body runs once. */
    method ResumePending(k: nat)
      requires Valid() && k < |pending|
      modifies this`pending, this`rechecked, this`applies, pending[k].station.slots
      ensures Valid()
      ensures pending == old(pending[..k] + pending[k + 1..])
      ensures rechecked == old(rechecked) + multiset{old(pending[k].station)}
      ensures var st := old(pending[k].station);
        RecheckApplies(st) ==> applies == old(applies) + [Call(st, st.config.selected)]
      ensures var st := old(pending[k].station);
        RecheckApplies(st) ==> st.slots[..] == Apply(old(st.slots[..]), st.config.selected)
      ensures var st := old(pending[k].station);
        !RecheckApplies(st) ==> applies == old(applies) && st.slots[..] == old(st.slots[..])
    {
      var task := pending[k];
      TaskStationsRemove(pending, k);
      pending := pending[..k] + pending[k + 1..];
      rechecked := rechecked + multiset{task.station};
      DelayedFilterApplication(task.station, task.delay);
    }

    /** Creation of `station`: a ghost is skipped; a configuration with a
        recipe is applied at once; a configuration without a recipe queues a
        re-check after the short delay; no configuration queues one after the
        long delay. */
    method OnStationAwake(station: Station)
      requires Valid()
      modifies this`awoken, this`pending, this`applies, station.slots
      ensures Valid()
      ensures awoken == old(awoken) + multiset{station} && rechecked == old(rechecked)
      ensures station.isGhost ==> pending == old(pending) && applies == old(applies)
      ensures station.isGhost ==> station.slots[..] == old(station.slots[..])
      ensures !station.isGhost && station.config != null && station.config.selected.Some? ==>
        pending == old(pending) && applies == old(applies) + [Call(station, station.config.selected)]
      ensures !station.isGhost && station.config != null && station.config.selected.Some? ==>
        station.slots[..] == Apply(old(station.slots[..]), station.config.selected)
      ensures !station.isGhost && station.config != null && station.config.selected.None? ==>
        pending == old(pending) + [Task(station, RecipeRetryDelay)] && applies == old(applies)
      ensures !station.isGhost && station.config != null && station.config.selected.None? ==>
        station.slots[..] == old(station.slots[..])
      ensures !station.isGhost && station.config == null ==>
        pending == old(pending) + [Task(station, ConfigRetryDelay)] && applies == old(applies)
      ensures !station.isGhost && station.config == null ==>
        station.slots[..] == old(station.slots[..])
    {
      awoken := awoken + multiset{station};
      assert Valid();
      if IsGhost(station) {
        return;
      }
      var config := GetStationConfiguration(station);
      if config != null {
        var recipe := GetRecipeFromConfig(config);
        if recipe.Some? {
          ApplyRecipeFilters(station, recipe);
        } else {
          StartDelayedFilterApplication(station, RecipeRetryDelay);
        }
      } else {
        StartDelayedFilterApplication(station, ConfigRetryDelay);
      }
    }

    /** Construction of `config`: registers a listener that applies every
        future recipe to the configuration's station (with no ghost check),
        then applies the current recipe once if there is one and the station
        is not a ghost. */
    method OnConfigurationConstructed(config: Configuration)
      modifies this`applies, config`listeners, if config.station == null then {} else {config.station.slots}
      ensures config.listeners == old(config.listeners) + [config.station]
      ensures var initial := config.selected.Some? && !IsGhost(config.station);
        applies == old(applies) + (if initial then [Call(config.station, config.selected)] else []) &&
        (config.station != null ==>
          config.station.slots[..] ==
            if initial then Apply(old(config.station.slots[..]), config.selected) else old(config.station.slots[..]))
    {
      config.listeners := config.listeners + [config.station];
      var currentRecipe := config.selected;
      if currentRecipe.Some? && !IsGhost(config.station) {
        ApplyRecipeFilters(config.station, currentRecipe);
      }
    }

    /** The host replaces the configuration's selected recipe and invokes
        every registered listener in order; each applies the new recipe to
        its station, ghost or not. */
    method ChangeRecipe(config: Configuration, recipe: Option<Recipe>)
      modifies this`applies, config`selected, set st: Station | st in config.listeners :: st.slots
      ensures config.selected == recipe
      ensures applies == old(applies) + Calls(old(config.listeners), recipe)
      ensures forall st: Station :: st in config.listeners ==>
        st.slots[..] == Apply(old(st.slots[..]), recipe)
    {
      config.selected := recipe;
      var listeners := config.listeners;
      var k := 0;
      while k < |listeners|
        invariant 0 <= k <= |listeners|
        invariant config.selected == recipe && config.listeners == listeners
        invariant applies == old(applies) + Calls(listeners[..k], recipe)
        invariant forall st: Station :: st in listeners ==>
          st.slots[..] == old(st.slots[..]) || st.slots[..] == Apply(old(st.slots[..]), recipe)
        invariant forall st: Station :: st in listeners[..k] ==>
          st.slots[..] == Apply(old(st.slots[..]), recipe)
      {
        var target := listeners[k];
        ApplyRecipeFilters(target, recipe);
        if target != null {
          ApplyIdempotent(old(target.slots[..]), recipe);
        }
        assert listeners[..k + 1] == listeners[..k] + [target];
        k := k + 1;
      }
      assert listeners[..k] == listeners;
    }
  }
}
