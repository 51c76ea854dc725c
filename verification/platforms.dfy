/**
 The two entity platforms together (custom_components/powerwall3basic/__init__.py forwards a
 config entry to the binary-sensor and sensor platforms): the unique ids of all entities stay
 distinct, for one device and across devices.
 */
module Platforms {
  import opened EntityIds
  import opened Sensor
  import opened BinarySensor

  /** The keys of every entity, sensors first. */
  function EntityKeys(): (keys: seq<string>)
    ensures |keys| == |SENSORS| + |BINARY_SENSORS|
    ensures forall i :: 0 <= i < |SENSORS| ==> keys[i] == SENSORS[i].key
    ensures forall i :: 0 <= i < |BINARY_SENSORS| ==> keys[|SENSORS| + i] == BINARY_SENSORS[i].key
  {
    Keys(SENSORS) + seq(|BINARY_SENSORS|, i requires 0 <= i < |BINARY_SENSORS| => BINARY_SENSORS[i].key)
  }

  /** The entity keys of both tables, spelled out once more. This is not a third table: it is a
      proof aid, because checking key pairs on plain string literals is far cheaper for the solver
      than checking them through the description tables. `EntityKeysSpelledOut` ties it to them. */
  const ENTITY_KEYS: seq<string> :=
    ["battery_power", "battery_discharged", "battery_charged", "grid_power", "grid_exported",
     "grid_imported", "home_power", "home_usage", "solar_power", "solar_generated", "battery_level",
     "grid_connected"]

  /** The tables' keys are exactly the spelled-out list. */
  lemma EntityKeysSpelledOut()
    ensures EntityKeys() == ENTITY_KEYS
  {
  }

  /** Checked key by key on the spelled-out list. */
  lemma SpelledOutKeysSeparated()
    ensures forall i, j :: 0 <= i < |ENTITY_KEYS| && 0 <= j < |ENTITY_KEYS| ==>
              !EndsWithSeparated(ENTITY_KEYS[i], ENTITY_KEYS[j])
  {
  }

  /** No entity key ends with an underscore followed by another entity key. */
  lemma EntityKeysSeparated()
    ensures forall i, j :: 0 <= i < |EntityKeys()| && 0 <= j < |EntityKeys()| ==>
              !EndsWithSeparated(EntityKeys()[i], EntityKeys()[j])
  {
    EntityKeysSpelledOut();
    SpelledOutKeysSeparated();
  }

  /** The entity keys are pairwise distinct, across both platforms. */
  lemma EntityKeysDistinct()
    ensures forall i, j :: 0 <= i < j < |EntityKeys()| ==> EntityKeys()[i] != EntityKeys()[j]
  {
    SensorTableInjective();
  }

  /**
   Two entities, of one device or of two, share a unique id only when they are the same entity
   of the same device.
   */
  lemma EntityIdsDistinct(d1: string, d2: string, i: nat, j: nat)
    requires i < |EntityKeys()| && j < |EntityKeys()|
    ensures UniqueId(d1, EntityKeys()[i]) == UniqueId(d2, EntityKeys()[j]) <==> d1 == d2 && i == j
  {
    EntityKeysSeparated();
    EntityKeysDistinct();
    UniqueIdAcrossDevices(d1, EntityKeys()[i], d2, EntityKeys()[j]);
  }
}
