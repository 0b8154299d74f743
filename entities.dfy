/** The record stored in the `location_logs` table (LocationEntity.kt). */
module Entities {

  datatype Option<T> = None | Some(value: T)

  /**
   * One captured position fix. `id` 0 means "not assigned yet": the store
   * assigns a fresh key on insert. Coordinates, accuracy and speed are kept
   * as opaque reals; `speed` is absent when the provider reported none.
   */
  datatype LocationEntity = LocationEntity(
    id: int,
    employeeId: string,
    latitude: real,
    longitude: real,
    accuracy: real,
    speed: Option<real>,
    timestamp: int,
    synced: bool)

  /** The data class constructor with its defaults `id = 0`, `synced = false`. */
  function NewLocationEntity(employeeId: string, latitude: real, longitude: real,
                             accuracy: real, speed: Option<real>, timestamp: int): (e: LocationEntity)
    ensures e.id == 0 && !e.synced
    ensures e.employeeId == employeeId && e.timestamp == timestamp && e.speed == speed
    ensures e.latitude == latitude && e.longitude == longitude && e.accuracy == accuracy
  {
    LocationEntity(0, employeeId, latitude, longitude, accuracy, speed, timestamp, false)
  }
}
