/**
 Entity unique ids, built the same way by both entity platforms
 (custom_components/powerwall3basic/sensor.py and binary_sensor.py): the device id, an
 underscore, and the description's key.
 */
module EntityIds {

  /** `f"{device_id}_{key}"`, given by its three parts so that each can be read back. */
  function UniqueId(deviceId: string, key: string): (r: string)
    ensures |r| == |deviceId| + 1 + |key|
    ensures r[..|deviceId|] == deviceId && r[|deviceId|] == '_' && r[|deviceId| + 1..] == key
  {
    deviceId + "_" + key
  }

  /** `longer` ends with an underscore followed by `shorter`. */
  predicate EndsWithSeparated(longer: string, shorter: string) {
    && |shorter| < |longer|
    && longer[|longer| - |shorter| - 1] == '_'
    && longer[|longer| - |shorter|..] == shorter
  }

  /** For one device, distinct keys give distinct unique ids. */
  lemma UniqueIdInjective(deviceId: string, k1: string, k2: string)
    ensures UniqueId(deviceId, k1) == UniqueId(deviceId, k2) <==> k1 == k2
  {
  }

  /**
   Ids do not collide even across devices, provided neither key ends with an underscore followed
   by the other: an id then splits back into exactly one device id and key. (Were the keys of
   different lengths, the longer one would end with an underscore and the shorter one.)
   */
  lemma UniqueIdAcrossDevices(d1: string, k1: string, d2: string, k2: string)
    requires !EndsWithSeparated(k1, k2) && !EndsWithSeparated(k2, k1)
    ensures UniqueId(d1, k1) == UniqueId(d2, k2) <==> d1 == d2 && k1 == k2
  {
  }
}
