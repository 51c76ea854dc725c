/**
 The sensor platform (custom_components/powerwall3basic/sensor.py): a fixed table of
 descriptions, each naming a key and the snapshot field its `value_fn` reads, and one entity
 per description whose value is that field of the coordinator's current snapshot.
 */
module Sensor {
  import opened Python
  import opened Api
  import opened Coordinator
  import opened EntityIds

  datatype Circuit = Battery | Grid | Load | Solar

  datatype Quantity = Power | EnergyImported | EnergyExported

  /** The snapshot field a description's `value_fn` returns. */
  datatype Field = MeterField(circuit: Circuit, quantity: Quantity) | BatteryLevel

  /** A sensor description; units, device and state classes and display precision are left out. */
  datatype Description = Description(name: string, key: string, field: Field)

  /** `SENSORS`, in the source's order. */
  const SENSORS: seq<Description> := [
    Description("Battery Power", "battery_power", MeterField(Battery, Power)),
    Description("Battery Discharged", "battery_discharged", MeterField(Battery, EnergyExported)),
    Description("Battery Charged", "battery_charged", MeterField(Battery, EnergyImported)),
    Description("Grid Power", "grid_power", MeterField(Grid, Power)),
    Description("Grid Exported", "grid_exported", MeterField(Grid, EnergyExported)),
    Description("Grid Imported", "grid_imported", MeterField(Grid, EnergyImported)),
    Description("Home Power", "home_power", MeterField(Load, Power)),
    Description("Home Usage", "home_usage", MeterField(Load, EnergyImported)),
    Description("Solar Power", "solar_power", MeterField(Solar, Power)),
    Description("Solar Generated", "solar_generated", MeterField(Solar, EnergyExported)),
    Description("Battery Level", "battery_level", BatteryLevel)
  ]

  /** The keys of a description table, in order. */
  function Keys(table: seq<Description>): (keys: seq<string>)
    ensures |keys| == |table|
    ensures forall i :: 0 <= i < |table| ==> keys[i] == table[i].key
  {
    seq(|table|, i requires 0 <= i < |table| => table[i].key)
  }

  function MeterOf(data: SensorData, circuit: Circuit): Meter {
    match circuit
    case Battery => data.battery
    case Grid => data.grid
    case Load => data.load
    case Solar => data.solar
  }

  /** What a `value_fn` returns for `field`: the stored value, with no conversion. */
  function Read(field: Field, data: SensorData): Value {
    match field
    case BatteryLevel => Float(data.battery_level)
    case MeterField(circuit, quantity) =>
      var m := MeterOf(data, circuit);
      match quantity
      case Power => m.power
      case EnergyImported => m.energy_imported
      case EnergyExported => m.energy_exported
  }

  /** The table has eleven descriptions, no two with the same key and no two reading the same
      field: key to field is injective. */
  lemma SensorTableInjective()
    ensures |SENSORS| == 11
    ensures forall i, j :: 0 <= i < j < |SENSORS| ==> SENSORS[i].key != SENSORS[j].key
    ensures forall i, j :: 0 <= i < j < |SENSORS| ==> SENSORS[i].field != SENSORS[j].field
  {
  }

  /** Which value each key shows, read from the snapshot through the table. */
  lemma SensorReadings(data: SensorData, i: nat)
    requires i < |SENSORS|
    ensures SENSORS[i].key == "battery_power" ==> Read(SENSORS[i].field, data) == data.battery.power
    ensures SENSORS[i].key == "battery_discharged" ==>
              Read(SENSORS[i].field, data) == data.battery.energy_exported
    ensures SENSORS[i].key == "battery_charged" ==>
              Read(SENSORS[i].field, data) == data.battery.energy_imported
    ensures SENSORS[i].key == "grid_power" ==> Read(SENSORS[i].field, data) == data.grid.power
    ensures SENSORS[i].key == "grid_exported" ==>
              Read(SENSORS[i].field, data) == data.grid.energy_exported
    ensures SENSORS[i].key == "grid_imported" ==>
              Read(SENSORS[i].field, data) == data.grid.energy_imported
    ensures SENSORS[i].key == "home_power" ==> Read(SENSORS[i].field, data) == data.load.power
    ensures SENSORS[i].key == "home_usage" ==> Read(SENSORS[i].field, data) == data.load.energy_imported
    ensures SENSORS[i].key == "solar_power" ==> Read(SENSORS[i].field, data) == data.solar.power
    ensures SENSORS[i].key == "solar_generated" ==>
              Read(SENSORS[i].field, data) == data.solar.energy_exported
    ensures SENSORS[i].key == "battery_level" ==> Read(SENSORS[i].field, data) == Float(data.battery_level)
  {
  }

  /** A sensor entity: its unique id and its description. */
  datatype SensorEntity = SensorEntity(uniqueId: string, description: Description)

  /** `async_setup_entry`: one entity per description, in table order, for device `deviceId`. */
  function SensorEntities(deviceId: string): (r: seq<SensorEntity>)
    ensures |r| == |SENSORS|
    ensures forall i :: 0 <= i < |r| ==> r[i].description == SENSORS[i]
    ensures forall i :: 0 <= i < |r| ==> r[i].uniqueId == UniqueId(deviceId, SENSORS[i].key)
    ensures forall i, j :: 0 <= i < j < |r| ==> r[i].uniqueId != r[j].uniqueId
  {
    SensorTableInjective();
    var r := seq(|SENSORS|, i requires 0 <= i < |SENSORS| =>
                              SensorEntity(UniqueId(deviceId, SENSORS[i].key), SENSORS[i]));
    forall i, j | 0 <= i < j < |r| ensures r[i].uniqueId != r[j].uniqueId {
      UniqueIdInjective(deviceId, SENSORS[i].key, SENSORS[j].key);
    }
    r
  }

  /** `native_value`: the entity's description applied to the coordinator's current snapshot. */
  function NativeValue(entity: SensorEntity, data: SensorData): (r: Value)
    ensures entity.description.field == BatteryLevel ==> r == Float(data.battery_level)
    ensures entity.description.field.MeterField? ==>
              var m := MeterOf(data, entity.description.field.circuit);
              r in {m.power, m.energy_imported, m.energy_exported}
  {
    Read(entity.description.field, data)
  }
}
