/** Client runs of the station model: what a caller can conclude from the
    contracts alone for typical situations of a station's life. */
module Scenarios {
  import opened Filters
  import opened Stations

  /** Two ingredients: water, and salt in either of two forms. */
  function SaltWater(): (r: Recipe)
  {
    Recipe(Some([Ingredient([Item("water")]), Ingredient([Item("salt"), Item("rock_salt")])]))
  }

  /** The filters the salt-water recipe gives a three-slot station. */
  function SaltWaterSlots(): (r: seq<Slot>)
  {
    [[Filter(["water"], true)], [Filter(["salt", "rock_salt"], true)], []]
  }

  /** Whatever three slots held before, the salt-water recipe leaves them
      holding exactly its two whitelists and an empty third slot. */
  lemma SaltWaterApplied(slots: seq<Slot>)
    requires |slots| == 3
    ensures Apply(slots, Some(SaltWater())) == SaltWaterSlots()
  {
    var ings := SaltWater().ingredients.value;
    var r := Applied(slots, ings);
    AppliedShape(slots, ings);
    assert WhitelistFor(ings[0]) == Filter(["water"], true) by {
      assert [Item("water")][..0] == [];
    }
    assert WhitelistFor(ings[1]) == Filter(["salt", "rock_salt"], true) by {
      assert [Item("salt"), Item("rock_salt")][..1] == [Item("salt")];
      assert [Item("salt")][..0] == [];
    }
    assert r == [r[0], r[1], r[2]];
  }

  /** A station created with its configuration and recipe already present is
      filtered at once, and nothing is queued. */
  method ImmediateScenario() returns (final: seq<Slot>, queued: nat)
    ensures final == SaltWaterSlots() && queued == 0
  {
    var mod := new ChemStationMod();
    var station := new Station(3, false);
    var config := new Configuration(station, Some(SaltWater()));
    station.config := config;
    SaltWaterApplied(station.slots[..]);
    mod.OnStationAwake(station);
    final, queued := station.slots[..], |mod.pending|;
  }

  /** A station created before its configuration exists queues one re-check
      at the long delay. The configuration then arrives (its construction
      applies the recipe once); the re-check applies it a second time, which
      by idempotence changes nothing, and leaves nothing queued. */
  method RetryScenario() returns (station: Station, final: seq<Slot>, delay: real, queued: nat, ghost calls: seq<Call>)
    ensures final == SaltWaterSlots() && delay == ConfigRetryDelay && queued == 0
    ensures calls == [Call(station, Some(SaltWater())), Call(station, Some(SaltWater()))]
  {
    var mod := new ChemStationMod();
    station := new Station(3, false);
    mod.OnStationAwake(station);
    assert mod.pending == [Task(station, ConfigRetryDelay)];
    delay := mod.pending[0].delay;
    var config := new Configuration(station, Some(SaltWater()));
    SaltWaterApplied(station.slots[..]);
    mod.OnConfigurationConstructed(config);
    station.config := config;
    SaltWaterApplied(station.slots[..]);
    mod.ResumePending(0);
    final, queued := station.slots[..], |mod.pending|;
    calls := mod.applies;
  }

  /** If the configuration is still missing when the re-check runs, nothing
      is applied and no further re-check is queued. */
  method GiveUpScenario() returns (final: seq<Slot>, queued: nat, ghost calls: seq<Call>)
    ensures final == [[], [], []] && queued == 0
    ensures calls == []
  {
    var mod := new ChemStationMod();
    var station := new Station(3, false);
    mod.OnStationAwake(station);
    mod.ResumePending(0);
    final, queued := station.slots[..], |mod.pending|;
    calls := mod.applies;
  }

  /** After a change to no recipe at all the slots keep their filters;
      after a change to a recipe with no ingredients every slot is empty. */
  method ChangeScenario() returns (afterNone: seq<Slot>, afterEmpty: seq<Slot>)
    ensures afterNone == SaltWaterSlots()
    ensures afterEmpty == [[], [], []]
  {
    var mod := new ChemStationMod();
    var station := new Station(3, false);
    var config := new Configuration(station, Some(SaltWater()));
    SaltWaterApplied(station.slots[..]);
    mod.OnConfigurationConstructed(config);
    assert config.listeners == [station];
    mod.ChangeRecipe(config, None);
    afterNone := station.slots[..];
    EmptyRecipeClearsAll(station.slots[..]);
    mod.ChangeRecipe(config, Some(Recipe(Some([]))));
    afterEmpty := station.slots[..];
  }

  /** The recipe-changed listener does not consult the ghost flag: a ghost
      station gets no initial application, but a later change fills its slots. */
  method GhostListenerScenario() returns (afterBind: seq<Slot>, afterChange: seq<Slot>)
    ensures afterBind == [[], [], []]
    ensures afterChange == SaltWaterSlots()
  {
    var mod := new ChemStationMod();
    var station := new Station(3, true);
    var config := new Configuration(station, Some(SaltWater()));
    mod.OnConfigurationConstructed(config);
    assert config.listeners == [station];
    afterBind := station.slots[..];
    SaltWaterApplied(station.slots[..]);
    mod.ChangeRecipe(config, Some(SaltWater()));
    afterChange := station.slots[..];
  }
}
