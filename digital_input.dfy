/**
 * The `DigitalInputMonitor` of src/sensors/digital.rs, which copies a digital
 * input into a shared flag (a limit switch, say). Reading the pin is I/O; the
 * value it yields, if any, is a parameter of each step.
 */
module DigitalInput {
  import opened Shared

  class DigitalInputMonitor {
    const updateField: Flag
    const default: bool

    constructor (updateField: Flag, default: bool)
      ensures this.updateField == updateField && this.default == default
    {
      this.updateField := updateField;
      this.default := default;
    }

    /** Stores the reading, or the configured default when the input yields nothing. */
    method Init(reading: Option<bool>)
      modifies updateField
      ensures updateField.value == if reading.Some? then reading.value else default
    {
      if reading.Some? {
        updateField.Store(reading.value);
      } else {
        updateField.Store(default);
      }
    }

    /** Stores the reading; without one the flag keeps its value. */
    method Run(reading: Option<bool>)
      modifies updateField
      ensures updateField.value == if reading.Some? then reading.value else old(updateField.value)
    {
      if reading.Some? {
        updateField.Store(reading.value);
      }
    }
  }
}
