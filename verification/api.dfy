/**
 Normalisation of the device client's raw readings (custom_components/powerwall3basic/api.py).
 The blocking client calls are not modelled: each one's outcome is an input.
 */
module Api {
  import opened Wrappers
  import opened Python

  /** One circuit's reading. The fields hold the response's values exactly as delivered. */
  datatype Meter = Meter(power: Value, energy_imported: Value, energy_exported: Value)

  /** The four circuits of one aggregate-meters response; `grid` comes from the `site` entry. */
  datatype Meters = Meters(battery: Meter, grid: Meter, load: Meter, solar: Meter)

  /** A circuit entry from which a `Meter` can be read: a dict with the three reading fields. */
  predicate IsMeterEntry(v: Value) {
    v.Dict? && "instant_power" in v.entries && "energy_exported" in v.entries
    && "energy_imported" in v.entries
  }

  /** A response from which a full `Meters` can be read. */
  predicate IsMetersResponse(v: Value) {
    && v.Dict?
    && "battery" in v.entries && IsMeterEntry(v.entries["battery"])
    && "site" in v.entries && IsMeterEntry(v.entries["site"])
    && "load" in v.entries && IsMeterEntry(v.entries["load"])
    && "solar" in v.entries && IsMeterEntry(v.entries["solar"])
  }

  /**
   `_to_meter`: reads `instant_power`, `energy_exported` and `energy_imported` (in that order)
   into a `Meter`, renaming `instant_power` to `power` and converting nothing.
   */
  function ToMeter(data: Value): (r: Result<Meter>)
    ensures r.Returned? <==> IsMeterEntry(data)
    ensures r.Returned? ==> && r.value.power == data.entries["instant_power"]
                            && r.value.energy_exported == data.entries["energy_exported"]
                            && r.value.energy_imported == data.entries["energy_imported"]
    ensures !data.Dict? ==> r == Raised(TypeError)
    ensures data.Dict? && "instant_power" !in data.entries ==> r == Raised(KeyError("instant_power"))
    ensures data.Dict? && "instant_power" in data.entries && "energy_exported" !in data.entries
            ==> r == Raised(KeyError("energy_exported"))
    ensures (data.Dict? && "instant_power" in data.entries && "energy_exported" in data.entries
             && "energy_imported" !in data.entries) ==> r == Raised(KeyError("energy_imported"))
  {
    var power :- GetItem(data, "instant_power");
    var exported :- GetItem(data, "energy_exported");
    var imported :- GetItem(data, "energy_imported");
    Returned(Meter(power, imported, exported))
  }

  /** `_to_meter(meters[circuit])`. */
  function MeterAt(response: Value, circuit: string): Result<Meter>
  {
    var entry :- GetItem(response, circuit);
    ToMeter(entry)
  }

  /**
   The post-call logic of `get_meters`: a response that is not a dict is "no data"; a dict is
   read circuit by circuit (battery, site, load, solar), and any missing key or malformed entry
   raises rather than producing "no data". An exception from the client call propagates.
   */
  function GetMeters(poll: Result<Value>): (r: Result<Option<Meters>>)
    ensures poll.Raised? ==> r == Raised(poll.error)
    ensures r == Returned(None) <==> poll.Returned? && !poll.value.Dict?
    ensures r.Returned? && r.value.Some? <==> poll.Returned? && IsMetersResponse(poll.value)
    ensures r.Returned? && r.value.Some? ==>
              && ToMeter(poll.value.entries["battery"]) == Returned(r.value.value.battery)
              && ToMeter(poll.value.entries["site"]) == Returned(r.value.value.grid)
              && ToMeter(poll.value.entries["load"]) == Returned(r.value.value.load)
              && ToMeter(poll.value.entries["solar"]) == Returned(r.value.value.solar)
    ensures poll.Returned? && poll.value.Dict? && !IsMetersResponse(poll.value) ==>
              r.Raised? && (r.error.KeyError? || r.error == TypeError)
    ensures poll.Returned? && poll.value.Dict? && "battery" !in poll.value.entries ==>
              r == Raised(KeyError("battery"))
  {
    var response :- poll;
    if response.Dict? then
      var battery :- MeterAt(response, "battery");
      var grid :- MeterAt(response, "site");
      var load :- MeterAt(response, "load");
      var solar :- MeterAt(response, "solar");
      Returned(Some(Meters(battery, grid, load, solar)))
    else
      Returned(None)
  }

  /** The circuit entry a device would send for `m`: the inverse of `ToMeter`. */
  function MeterEntry(m: Meter): Value {
    Dict(map["instant_power" := m.power, "energy_imported" := m.energy_imported,
             "energy_exported" := m.energy_exported])
  }

  /** The aggregate-meters response a device would send for `m`: the inverse of `GetMeters`. */
  function MetersResponse(m: Meters): Value {
    Dict(map["battery" := MeterEntry(m.battery), "site" := MeterEntry(m.grid),
             "load" := MeterEntry(m.load), "solar" := MeterEntry(m.solar)])
  }

  /** Reading back a circuit entry gives the meter it was made from. */
  lemma ToMeterOfEntry(m: Meter)
    ensures ToMeter(MeterEntry(m)) == Returned(m)
  {
  }

  /** Reading back a response gives the meters it was made from: nothing is renamed or converted
      except `site` becoming `grid`. */
  lemma GetMetersOfResponse(m: Meters)
    ensures GetMeters(Returned(MetersResponse(m))) == Returned(Some(m))
  {
  }

  /**
   The post-call logic of `get_battery_level`: a falsy level (`None`, `0` or `0.0`) is "no data",
   any other level is returned as a float. A level of zero is therefore indistinguishable from
   an absent one.
   */
  function GetBatteryLevel(level: Result<NumberOrNone>): (r: Result<Option<real>>)
    ensures level.Raised? ==> r == Raised(level.error)
    ensures r == Returned(None) <==>
              level.Returned? && (level.value == NoneValue || level.value == Int(0)
                                  || level.value == Float(0.0))
    ensures level.Returned? && Truthy(level.value) ==> r.Returned? && r.value.Some?
    ensures r.Returned? && r.value.Some? ==>
              && r.value.value != 0.0
              && (level.value.Int? ==> r.value.value == level.value.i as real)
              && (level.value.Float? ==> r.value.value == level.value.f)
  {
    var v :- level;
    if Truthy(v) then Returned(Some(ToFloat(v))) else Returned(None)
  }

  /**
   The post-call logic of `is_grid_connected`: a falsy status (`None`, `0` or `0.0`) is "no data";
   otherwise the status is compared with 1. A status of 0 therefore never yields `False`.
   */
  function IsGridConnected(status: Result<NumberOrNone>): (r: Result<Option<bool>>)
    ensures status.Raised? ==> r == Raised(status.error)
    ensures r == Returned(None) <==>
              status.Returned? && (status.value == NoneValue || status.value == Int(0)
                                   || status.value == Float(0.0))
    ensures r == Returned(Some(true)) <==>
              status.Returned? && (status.value == Int(1) || status.value == Float(1.0))
    ensures r == Returned(Some(false)) <==>
              && status.Returned? && !status.value.NoneValue?
              && status.value != Int(0) && status.value != Float(0.0)
              && status.value != Int(1) && status.value != Float(1.0)
  {
    var v :- status;
    if Truthy(v) then Returned(Some(EqualsInt(v, 1))) else Returned(None)
  }

  /** Zero readings collapse to "no data": a zero battery level reads like a missing one, and a
      zero grid status reads like a missing one rather than as "disconnected". */
  lemma ZeroIsNoData()
    ensures GetBatteryLevel(Returned(Int(0))) == GetBatteryLevel(Returned(NoneValue)) == Returned(None)
    ensures GetBatteryLevel(Returned(Float(0.0))) == Returned(None)
    ensures IsGridConnected(Returned(Int(0))) == IsGridConnected(Returned(NoneValue)) == Returned(None)
    ensures IsGridConnected(Returned(Float(0.0))) == Returned(None)
  {
  }
}
