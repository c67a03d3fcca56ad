/**
 * The constants of the station's configuration module (src/Configuration.py)
 * and the literals of the main module that the model uses. Durations are in
 * whole milliseconds; LED intervals are the source's blink half-periods in
 * seconds.
 */
module Config {

  // Pressure is pushed to the anemometer once every this many measures.
  const SECONDS_BETWEEN_PRESSURE_UPDATE := 3600
  const SECONDS_BETWEEN_MEASURES := 1
  const PRESSURE_UPDATE_TICKS := SECONDS_BETWEEN_PRESSURE_UPDATE * SECONDS_BETWEEN_MEASURES

  // Sampling period, in milliseconds.
  const MEASURE_PERIOD_MS := 1000 * SECONDS_BETWEEN_MEASURES

  // Device identity: 0 is the interior station, 1 the exterior one.
  const INTERIOR_PI_ID := 0
  const EXTERIOR_PI_ID := 1

  // Blink intervals.
  const LED_INTERVAL_MEASURE: real := 1.0
  const LED_INTERVAL_SEND: real := 0.1
  const LED_INTERVAL_STOPPED: real := 3.0
  const LED_INTERVAL_SENSOR_ERROR: real := 20.0

  // Uplink retry policy.
  const LORA_MAX_RETRIES_WHEN_FAILED := 10
  const LORA_TIME_BETWEEN_RETRIES_MS := 20000
  const LORA_TIME_BETWEEN_INTERIOR_AND_EXTERIOR_MS := 30000

  // Delay of the switch-polling loop while the switch is low.
  const SWITCH_LOW_DELAY_MS := 5000

}
