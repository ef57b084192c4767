/**
 * The timeline settings store (client/src/store/settingsStore.ts): the first and the last
 * hour of the work day, 8 and 18 until changed. Each setter writes its one field and accepts
 * any number; the store does not keep the start before the end. Persisting the two numbers
 * in the browser's local storage is not part of this model.
 */
module SettingsStore {

  const DefaultStartHour: int := 8
  const DefaultEndHour: int := 18

  class Settings {
    var startHour: int
    var endHour: int

    constructor()
      ensures startHour == DefaultStartHour && endHour == DefaultEndHour
    {
      startHour := DefaultStartHour;
      endHour := DefaultEndHour;
    }

    /** `setStartHour`: changes the start hour only, whatever the end hour is. */
    method SetStartHour(hour: int)
      modifies this
      ensures startHour == hour && endHour == old(endHour)
    {
      startHour := hour;
    }

    /** `setEndHour`: changes the end hour only, whatever the start hour is. */
    method SetEndHour(hour: int)
      modifies this
      ensures endHour == hour && startHour == old(startHour)
    {
      endHour := hour;
    }
  }
}
