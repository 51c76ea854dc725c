/**
 The binary-sensor platform (custom_components/powerwall3basic/binary_sensor.py): a one-entry
 table whose `is_on` reads the snapshot's grid state, and one entity per description.
 */
module BinarySensor {
  import opened Coordinator
  import opened EntityIds

  /** The snapshot field a description's `is_on` returns. */
  datatype BinaryField = GridConnected

  /** A binary-sensor description; the device class is left out. */
  datatype BinaryDescription = BinaryDescription(name: string, key: string, field: BinaryField)

  /** `BINARY_SENSORS`. */
  const BINARY_SENSORS: seq<BinaryDescription> := [
    BinaryDescription("Grid Connected", "grid_connected", GridConnected)
  ]

  /** The table holds exactly one description, keyed `grid_connected`. */
  lemma BinarySensorTable()
    ensures |BINARY_SENSORS| == 1
    ensures BINARY_SENSORS[0].key == "grid_connected"
    ensures BINARY_SENSORS[0].field == GridConnected
  {
  }

  /** A binary-sensor entity: its unique id and its description. */
  datatype BinarySensorEntity = BinarySensorEntity(uniqueId: string, description: BinaryDescription)

  /** `async_setup_entry`: one entity per description, in table order, for device `deviceId`. */
  function BinarySensorEntities(deviceId: string): (r: seq<BinarySensorEntity>)
    ensures |r| == |BINARY_SENSORS| == 1
    ensures forall i :: 0 <= i < |r| ==> r[i].description == BINARY_SENSORS[i]
    ensures r[0].uniqueId == deviceId + "_grid_connected"
  {
    seq(|BINARY_SENSORS|, i requires 0 <= i < |BINARY_SENSORS| =>
                            BinarySensorEntity(UniqueId(deviceId, BINARY_SENSORS[i].key),
                                               BINARY_SENSORS[i]))
  }

  /** `is_on`: the grid state of the coordinator's current snapshot, unchanged. */
  function IsOn(entity: BinarySensorEntity, data: SensorData): (r: bool)
    ensures r == data.grid_connected
  {
    match entity.description.field
    case GridConnected => data.grid_connected
  }
}
