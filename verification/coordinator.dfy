/**
 The poll coordinator (custom_components/powerwall3basic/coordinator.py): the authentication gate
 run at setup and the all-or-nothing aggregation run on every refresh. The three client calls of a
 refresh run concurrently in a task group; here each call's outcome is an input.
 */
module Coordinator {
  import opened Wrappers
  import opened Python
  import opened Api

  /** The snapshot every entity reads: the four meters, the battery level and the grid state. */
  datatype SensorData = SensorData(
    battery: Meter,
    grid: Meter,
    load: Meter,
    solar: Meter,
    battery_level: real,
    grid_connected: bool)

  /** `_async_setup`: setup goes ahead only when authentication returns true. A false answer
      fails setup with UpdateFailed; an exception from the client escapes unchanged. */
  function Setup(authenticated: Result<bool>): (r: Result<()>)
    ensures r.Returned? <==> authenticated == Returned(true)
    ensures authenticated == Returned(false) ==> r == Raised(UpdateFailed)
    ensures authenticated.Raised? ==> r == Raised(authenticated.error)
  {
    var ok :- authenticated;
    if !ok then Raised(UpdateFailed) else Returned(())
  }

  /**
   `_async_update_data` after the task group has joined. If any task raised, the task group
   raises before any result is inspected; otherwise a single missing result fails the refresh,
   and only when all three are present is a snapshot built, by copying them field for field.
   */
  function UpdateData(meters: Result<Option<Meters>>, level: Result<Option<real>>,
                      connected: Result<Option<bool>>): (r: Result<SensorData>)
    ensures r.Returned? <==> && meters.Returned? && meters.value.Some?
                             && level.Returned? && level.value.Some?
                             && connected.Returned? && connected.value.Some?
    ensures meters.Raised? || level.Raised? || connected.Raised? ==> r == Raised(ExceptionGroup)
    ensures (&& meters.Returned? && level.Returned? && connected.Returned?
             && (meters.value.None? || level.value.None? || connected.value.None?))
            ==> r == Raised(UpdateFailed)
    ensures r.Returned? ==> && r.value.battery == meters.value.value.battery
                            && r.value.grid == meters.value.value.grid
                            && r.value.load == meters.value.value.load
                            && r.value.solar == meters.value.value.solar
                            && r.value.battery_level == level.value.value
                            && r.value.grid_connected == connected.value.value
  {
    if meters.Raised? || level.Raised? || connected.Raised? then
      Raised(ExceptionGroup)
    else if meters.value.None? || level.value.None? || connected.value.None? then
      Raised(UpdateFailed)
    else
      var m := meters.value.value;
      Returned(SensorData(m.battery, m.grid, m.load, m.solar, level.value.value, connected.value.value))
  }

  /**
   One refresh from the raw outcomes of the three client calls (`poll`, `level`, `grid_status`):
   each goes through its normalisation in `Api`, then through `UpdateData`.
   */
  function Refresh(poll: Result<Value>, level: Result<NumberOrNone>,
                   status: Result<NumberOrNone>): (r: Result<SensorData>)
    ensures r.Returned? <==> && poll.Returned? && IsMetersResponse(poll.value)
                             && level.Returned? && Truthy(level.value)
                             && status.Returned? && Truthy(status.value)
    ensures poll.Raised? || level.Raised? || status.Raised? ==> r == Raised(ExceptionGroup)
    ensures r.Raised? ==> r.error == ExceptionGroup || r.error == UpdateFailed
    ensures poll.Returned? && poll.value.Dict? && !IsMetersResponse(poll.value) ==> r == Raised(ExceptionGroup)
    ensures (&& poll.Returned? && !poll.value.Dict? && level.Returned? && status.Returned?)
            ==> r == Raised(UpdateFailed)
    ensures (&& poll.Returned? && (!poll.value.Dict? || IsMetersResponse(poll.value))
             && level.Returned? && status.Returned? && !r.Returned?)
            ==> r == Raised(UpdateFailed)
    ensures r.Returned? ==> && ToMeter(poll.value.entries["site"]) == Returned(r.value.grid)
                            && ToMeter(poll.value.entries["battery"]) == Returned(r.value.battery)
                            && ToMeter(poll.value.entries["load"]) == Returned(r.value.load)
                            && ToMeter(poll.value.entries["solar"]) == Returned(r.value.solar)
                            && r.value.battery_level == ToFloat(level.value)
                            && (r.value.grid_connected <==> EqualsInt(status.value, 1))
  {
    UpdateData(GetMeters(poll), GetBatteryLevel(level), IsGridConnected(status))
  }

  /** A refresh whose three calls deliver a well-formed response publishes exactly what the
      device reported: every field of the snapshot is the corresponding input. */
  lemma RefreshPublishesReadings(m: Meters, level: real, status: int)
    requires level != 0.0 && status != 0
    ensures Refresh(Returned(MetersResponse(m)), Returned(Float(level)), Returned(Int(status)))
            == Returned(SensorData(m.battery, m.grid, m.load, m.solar, level, status == 1))
  {
  }

  /** A battery level of zero never reaches the entities: it reads exactly like an absent level,
      and the whole refresh fails. */
  lemma EmptyBatteryFailsRefresh(poll: Result<Value>, status: Result<NumberOrNone>)
    ensures Refresh(poll, Returned(Int(0)), status).Raised?
    ensures Refresh(poll, Returned(Float(0.0)), status).Raised?
    ensures Refresh(poll, Returned(Int(0)), status) == Refresh(poll, Returned(NoneValue), status)
    ensures Refresh(poll, Returned(Float(0.0)), status) == Refresh(poll, Returned(NoneValue), status)
  {
  }

  /** A grid status of zero is never published as "disconnected": it reads exactly like an absent
      status, and the whole refresh fails. */
  lemma ZeroGridStatusFailsRefresh(poll: Result<Value>, level: Result<NumberOrNone>)
    ensures Refresh(poll, level, Returned(Int(0))).Raised?
    ensures Refresh(poll, level, Returned(Float(0.0))).Raised?
    ensures Refresh(poll, level, Returned(Int(0))) == Refresh(poll, level, Returned(NoneValue))
    ensures Refresh(poll, level, Returned(Float(0.0))) == Refresh(poll, level, Returned(NoneValue))
  {
  }
}
