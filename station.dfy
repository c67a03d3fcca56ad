/**
 * The sampling, save and send pipeline of src/demo_mi2.py: the module's
 * globals as the fields of one object, and its operations as methods. The
 * sensors, the clock and the uplink transport are oracles passed in.
 *
 * This is the pipeline with its buffer reset as evidently intended: each reset
 * installs a new dictionary of empty lists, and the two buffers never share a
 * list. The pipeline as written, where both buffers and every reset are one
 * shared dictionary, is modelled in module AliasedPipeline.
 */
module Station {
  import opened Outcomes
  import opened Config
  import opened Channels
  import Payload

  // ---------------------------------------------------------------- oracles

  /** A sensor read: a value, or an exception escaping the driver. */
  datatype Reading<T> = Value(v: T) | Raised

  /** `anemometer.setPressure`: True, False, or an exception. */
  datatype PressurePush = Accepted | Rejected | PushRaised

  /** What the drivers return during one sampling tick. */
  datatype TickReads = TickReads(
    pressure: Reading<real>,          // bmp280.getPressureAndAltitude
    push: PressurePush,               // anemometer.setPressure
    radiant: Reading<real>,           // mcp9808.getRadiantTemperature
    airAndHumidity: Reading<(real, real)>, // sht31_d.getTemperatureAndHumidity
    wind: Reading<real>,              // anemometer.getMeasure
    radiation: real)                  // pyrano.getRadiationFluxDensity

  /** What one call of `send_lora.send_data` returns: a status code, or an exception. */
  datatype Reply = Status(code: int) | Raises

  predicate Succeeds(r: Reply)
  {
    r == Status(0)
  }

  // ------------------------------------------------- recalibration counter

  const INITIAL_COUNTER := PRESSURE_UPDATE_TICKS

  /** The incremented counter exceeds the interval: this tick pushes the pressure. */
  predicate Recalibrates(counter: int)
  {
    counter + 1 > PRESSURE_UPDATE_TICKS
  }

  /** The counter after a tick: it restarts at 0 on a recalibration and stays within [0, 3600]. */
  function NextCounter(counter: int): (c: int)
    ensures c == 0 <==> Recalibrates(counter) || counter == -1
    ensures 0 <= counter <= PRESSURE_UPDATE_TICKS ==> 0 <= c <= PRESSURE_UPDATE_TICKS
  {
    if Recalibrates(counter) then 0 else counter + 1
  }

  function CounterAfter(counter: int, ticks: nat): int
    decreases ticks
  {
    if ticks == 0 then counter else CounterAfter(NextCounter(counter), ticks - 1)
  }

  /** The first tick after start-up recalibrates and resets the counter. */
  lemma FirstTickRecalibrates()
    ensures Recalibrates(INITIAL_COUNTER) && NextCounter(INITIAL_COUNTER) == 0
  {
  }

  /** After a reset, the counter climbs by one per tick up to the interval. */
  lemma {:induction false} CounterClimbs(ticks: nat)
    requires ticks <= PRESSURE_UPDATE_TICKS
    ensures CounterAfter(0, ticks) == ticks
  {
    if ticks > 0 {
      CounterClimbs(ticks - 1);
      CounterAfterStep(0, ticks - 1);
    }
  }

  lemma {:induction false} CounterAfterStep(counter: int, ticks: nat)
    ensures CounterAfter(counter, ticks + 1) == NextCounter(CounterAfter(counter, ticks))
    decreases ticks
  {
    if ticks > 0 {
      CounterAfterStep(NextCounter(counter), ticks - 1);
    }
  }

  /**
   * After a recalibrating tick, the n-th following tick recalibrates exactly
   * when n is 3601, and the counter is then back at 0.
   */
  lemma RecalibrationPeriod(n: nat)
    requires 1 <= n <= PRESSURE_UPDATE_TICKS + 1
    ensures Recalibrates(CounterAfter(0, n - 1)) <==> n == PRESSURE_UPDATE_TICKS + 1
    ensures CounterAfter(0, PRESSURE_UPDATE_TICKS + 1) == 0
  {
    CounterClimbs(n - 1);
    CounterClimbs(PRESSURE_UPDATE_TICKS);
    CounterAfterStep(0, PRESSURE_UPDATE_TICKS);
  }

  // ---------------------------------------------------------- one tick

  /**
   * What `measure_data` appends, given the counter before the tick: nothing
   * when a read in its first `try` raises, otherwise one value per channel,
   * with -1 for a wind read that raised and 0 radiation on the exterior device.
   */
  function TickSample(counter: int, r: TickReads, piId: int): (t: Option<Sample>)
    ensures t.None? <==>
      || (Recalibrates(counter) && (r.pressure.Raised? || r.push.PushRaised?))
      || r.radiant.Raised? || r.airAndHumidity.Raised?
    ensures t.Some? && piId == EXTERIOR_PI_ID ==> t.value.radiation == 0.0
    ensures t.Some? && r.wind.Raised? ==> t.value.wind == -1.0
  {
    if Recalibrates(counter) && (r.pressure.Raised? || r.push.PushRaised?) then None
    else if r.radiant.Raised? || r.airAndHumidity.Raised? then None
    else Some(Sample(
      if piId == EXTERIOR_PI_ID then 0.0 else r.radiation,
      r.airAndHumidity.v.0,
      r.radiant.v,
      r.airAndHumidity.v.1,
      if r.wind.Raised? then -1.0 else r.wind.v))
  }

  /**
   * The wind and pyranometer reads come after the first `try`: whatever they
   * return, they never decide whether a tick records its values.
   */
  lemma LateReadsNeverAbort(counter: int, r: TickReads, piId: int, wind: Reading<real>, radiation: real)
    ensures TickSample(counter, r.(wind := wind, radiation := radiation), piId).None? ==
      TickSample(counter, r, piId).None?
  {
  }

  /** The values a passing tick records. */
  lemma TickValues(counter: int, r: TickReads, piId: int)
    requires TickSample(counter, r, piId).Some?
    ensures var s := TickSample(counter, r, piId).value;
      && s.temperature == r.airAndHumidity.v.0 && s.humidity == r.airAndHumidity.v.1
      && s.globe == r.radiant.v
      && s.wind == (if r.wind.Raised? then -1.0 else r.wind.v)
      && s.radiation == (if piId == EXTERIOR_PI_ID then 0.0 else r.radiation)
  {
  }

  /** A False from `setPressure` is only logged; between recalibrations the pressure is not read at all. */
  lemma PressureOnlyMattersWhenRaised(counter: int, r: TickReads, piId: int)
    ensures TickSample(counter, r.(push := Rejected), piId) == TickSample(counter, r.(push := Accepted), piId)
    ensures !Recalibrates(counter) ==>
      TickSample(counter, r, piId) == TickSample(counter, r.(pressure := Raised, push := PushRaised), piId)
  {
  }

  // -------------------------------------------------------- observable state

  /** One CSV line: the time it was written and the five means in header order. */
  datatype Row = Row(stamp: int, means: seq<real>)

  /** The arguments of one call of `send_lora.send_data`. */
  datatype Uplink = Uplink(isTest: bool, stamp: int, means: Sample, device: int, pythonHat: bool)

  /** What the pipeline does outside its own state, in order. */
  datatype Action = Sleep(ms: int) | Transmit(uplink: Uplink)

  /**
   * The pipeline's state as values: the two buffers' snapshots in channel
   * order, the recalibration counter, the LED interval and every interval set
   * so far, the CSV data lines, and the sleeps and transport calls.
   */
  datatype View = View(
    log: seq<seq<real>>, send: seq<seq<real>>, counter: int,
    led: real, ledSets: seq<real>, file: seq<Row>, actions: seq<Action>)

  predicate WellFormed(v: View)
  {
    |v.log| == CHANNEL_COUNT && |v.send| == CHANNEL_COUNT
  }

  /** `set_led_interval` */
  function SetLed(v: View, interval: real): View
  {
    v.(led := interval, ledSets := v.ledSets + [interval])
  }

  /** `measure_data` */
  function AfterTick(v: View, r: TickReads, piId: int): (w: View)
    requires WellFormed(v)
    ensures WellFormed(w) && w.file == v.file && w.actions == v.actions
    ensures w.counter == NextCounter(v.counter)
    ensures w.ledSets == v.ledSets || w.ledSets == v.ledSets + [LED_INTERVAL_SENSOR_ERROR]
  {
    var v1 := v.(counter := NextCounter(v.counter));
    match TickSample(v.counter, r, piId)
    case None => SetLed(v1, LED_INTERVAL_SENSOR_ERROR)
    case Some(s) => v1.(log := Appended(v.log, s), send := Appended(v.send, s))
  }

  /** `save_data` */
  function AfterSave(v: View, stamp: int): (w: View)
    ensures w.log == EMPTY && w.send == v.send && w.counter == v.counter
    ensures w.led == v.led && w.ledSets == v.ledSets && w.actions == v.actions
    ensures |v.file| <= |w.file| <= |v.file| + 1 && w.file[..|v.file|] == v.file
  {
    v.(log := EMPTY, file := if AllNonEmpty(v.log) then v.file + [Row(stamp, Averages(v.log))] else v.file)
  }

  // --------------------------------------------------------------- retries

  const MAX_CALLS := 1 + LORA_MAX_RETRIES_WHEN_FAILED

  /**
   * The retry protocol's outcome for a transport answering `reply(i)` to call
   * i: at least one call and at most 11, every call but the last failed, the
   * last decides delivery, and giving up takes all 11 calls.
   */
  predicate RetryOutcome(reply: nat -> Reply, calls: nat, delivered: bool)
    ensures RetryOutcome(reply, calls, delivered) ==> calls < MAX_CALLS ==> delivered
    ensures RetryOutcome(reply, calls, delivered) && Succeeds(reply(0)) ==> calls == 1
  {
    && 1 <= calls <= MAX_CALLS
    && (forall i :: 0 <= i < calls - 1 ==> !Succeeds(reply(i)))
    && (delivered <==> Succeeds(reply(calls - 1)))
    && (!delivered ==> calls == MAX_CALLS)
  }

  /** The retry loop of `send_to_lora`: one call, then up to ten more until one returns 0. */
  method Deliver(reply: nat -> Reply) returns (calls: nat, delivered: bool)
    ensures RetryOutcome(reply, calls, delivered)
  {
    calls := 1;
    if Succeeds(reply(0)) {
      return 1, true;
    }
    var counter := 0;
    var failed := true;
    while counter < LORA_MAX_RETRIES_WHEN_FAILED
      invariant 0 <= counter <= LORA_MAX_RETRIES_WHEN_FAILED
      invariant calls == 1 + counter && failed
      invariant forall i :: 0 <= i < calls ==> !Succeeds(reply(i))
    {
      calls := calls + 1;
      if Succeeds(reply(calls - 1)) {
        failed := false;
        break;
      }
      counter := counter + 1;
    }
    delivered := !failed;
  }

  /** The number of calls the protocol makes, counted call by call from call i. */
  function CallsFrom(reply: nat -> Reply, i: nat): nat
    requires i < MAX_CALLS
    decreases MAX_CALLS - i
  {
    if Succeeds(reply(i)) || i == MAX_CALLS - 1 then i + 1 else CallsFrom(reply, i + 1)
  }

  function CallsNeeded(reply: nat -> Reply): nat
  {
    CallsFrom(reply, 0)
  }

  lemma {:induction false} CallsFromMeets(reply: nat -> Reply, i: nat)
    requires i < MAX_CALLS
    ensures i < CallsFrom(reply, i) <= MAX_CALLS
    ensures forall j :: i <= j < CallsFrom(reply, i) - 1 ==> !Succeeds(reply(j))
    ensures Succeeds(reply(CallsFrom(reply, i) - 1)) || CallsFrom(reply, i) == MAX_CALLS
    decreases MAX_CALLS - i
  {
    if !Succeeds(reply(i)) && i < MAX_CALLS - 1 {
      CallsFromMeets(reply, i + 1);
    }
  }

  /** The retry outcome is unique: it is the call-by-call count. */
  lemma RetryOutcomeIsCallsNeeded(reply: nat -> Reply, calls: nat, delivered: bool)
    requires RetryOutcome(reply, calls, delivered)
    ensures calls == CallsNeeded(reply)
    ensures delivered == Succeeds(reply(calls - 1))
  {
    CallsFromMeets(reply, 0);
  }

  /** A transport that always fails is called exactly 11 times. */
  lemma AlwaysFailingTransport(reply: nat -> Reply, calls: nat, delivered: bool)
    requires forall i :: !Succeeds(reply(i))
    requires RetryOutcome(reply, calls, delivered)
    ensures calls == MAX_CALLS && !delivered
  {
  }

  /** A transport that succeeds on the third call is called exactly 3 times. */
  lemma ThirdCallSucceeds(reply: nat -> Reply, calls: nat, delivered: bool)
    requires !Succeeds(reply(0)) && !Succeeds(reply(1)) && Succeeds(reply(2))
    requires RetryOutcome(reply, calls, delivered)
    ensures calls == 3 && delivered
  {
  }

  // ----------------------------------------------------------------- sending

  /** The timestamp and the scaled means fit their fields of the frame. */
  predicate Packs(u: Uplink)
  {
    Payload.Packable(u.stamp, Payload.Scale(u.means))
  }

  /** `send_lora.send_data` encodes its arguments exactly when they pack. */
  lemma PacksIsEncodable(u: Uplink)
    ensures Packs(u) <==> Payload.Encoded(u.isTest, u.stamp, u.means, u.device).Some?
  {
  }

  /** What a call of `send_lora.send_data` returns: it raises where the frame cannot be packed. */
  function CallReply(u: Uplink, transport: nat -> Reply): (reply: nat -> Reply)
    ensures !Packs(u) ==> forall i: nat :: !Succeeds(reply(i))
    ensures Packs(u) ==> forall i: nat :: reply(i) == transport(i)
  {
    (i: nat) => if Packs(u) then transport(i) else Raises
  }

  /** The 30 s wait of the interior device before its first call. */
  function Offset(device: int): (acts: seq<Action>)
    ensures |acts| == if device == INTERIOR_PI_ID then 1 else 0
    ensures forall i :: 0 <= i < |acts| ==> acts[i] == Sleep(LORA_TIME_BETWEEN_INTERIOR_AND_EXTERIOR_MS)
  {
    if device == INTERIOR_PI_ID then [Sleep(LORA_TIME_BETWEEN_INTERIOR_AND_EXTERIOR_MS)] else []
  }

  /** `calls` calls with the same arguments, a 20 s sleep before each retry. */
  function Attempts(u: Uplink, calls: nat): (acts: seq<Action>)
    requires calls >= 1
    ensures |acts| == 2 * calls - 1 && acts[0] == Transmit(u) && acts[|acts| - 1] == Transmit(u)
    ensures forall i :: 0 <= i < |acts| ==> acts[i] == Transmit(u) || acts[i] == Sleep(LORA_TIME_BETWEEN_RETRIES_MS)
    ensures forall i :: 0 <= i < |acts| - 1 ==> acts[i].Transmit? != acts[i + 1].Transmit?
  {
    seq(2 * calls - 1, i => if i % 2 == 0 then Transmit(u) else Sleep(LORA_TIME_BETWEEN_RETRIES_MS))
  }

  datatype SendOutcome = NoData | Attempted(calls: nat, delivered: bool)

  /** The means `send_to_lora` sends, if every channel of the send buffer has a reading. */
  function SentUplink(v: View, stamp: int, piId: int, pythonHat: bool): Option<Uplink>
    requires WellFormed(v)
  {
    if AllNonEmpty(v.send) then Some(Uplink(false, stamp, SampleOf(Averages(v.send)), piId, pythonHat)) else None
  }

  function SendResult(v: View, stamp: int, transport: nat -> Reply, piId: int, pythonHat: bool): SendOutcome
    requires WellFormed(v)
  {
    match SentUplink(v, stamp, piId, pythonHat)
    case None => NoData
    case Some(u) =>
      var reply := CallReply(u, transport);
      Attempted(CallsNeeded(reply), Succeeds(reply(CallsNeeded(reply) - 1)))
  }

  /** `send_to_lora` */
  function AfterSend(v: View, stamp: int, transport: nat -> Reply, piId: int, pythonHat: bool): (w: View)
    requires WellFormed(v)
    ensures WellFormed(w) && w.log == v.log && w.file == v.file && w.counter == v.counter
    ensures w.led == v.led && w.ledSets == v.ledSets
    ensures |v.actions| <= |w.actions| && w.actions[..|v.actions|] == v.actions
    ensures w.send == v.send || w.send == EMPTY
  {
    match SentUplink(v, stamp, piId, pythonHat)
    case None => v
    case Some(u) =>
      CallsFromMeets(CallReply(u, transport), 0);
      v.(send := EMPTY, actions := v.actions + Offset(piId) + Attempts(u, CallsNeeded(CallReply(u, transport))))
  }

  /** The state after `send_to_lora`, given the calls the retry loop made. */
  lemma AfterSendDelivered(v: View, stamp: int, transport: nat -> Reply, piId: int, pythonHat: bool,
                           u: Uplink, calls: nat, delivered: bool)
    requires WellFormed(v) && SentUplink(v, stamp, piId, pythonHat) == Some(u)
    requires RetryOutcome(CallReply(u, transport), calls, delivered)
    ensures SendResult(v, stamp, transport, piId, pythonHat) == Attempted(calls, delivered)
    ensures AfterSend(v, stamp, transport, piId, pythonHat) ==
      v.(send := EMPTY, actions := v.actions + Offset(piId) + Attempts(u, calls))
  {
    RetryOutcomeIsCallsNeeded(CallReply(u, transport), calls, delivered);
  }

  /** `send_data`: the send wrapped between LED interval 0.1 and 1. */
  function AfterSendData(v: View, stamp: int, transport: nat -> Reply, piId: int, pythonHat: bool): (w: View)
    requires WellFormed(v)
    ensures WellFormed(w) && w.led == LED_INTERVAL_MEASURE && w.log == v.log && w.file == v.file
  {
    SetLed(AfterSend(SetLed(v, LED_INTERVAL_SEND), stamp, transport, piId, pythonHat), LED_INTERVAL_MEASURE)
  }

  // ------------------------------------------------------------- scheduling

  /** The wait of `run_measures`: up to the next whole period since the epoch. */
  function PhaseWait(now: int, epoch: int): (w: int)
    ensures 0 < w <= MEASURE_PERIOD_MS
    ensures (now + w - epoch) % MEASURE_PERIOD_MS == 0
  {
    MEASURE_PERIOD_MS - (now - epoch) % MEASURE_PERIOD_MS
  }

  /** `run_measures` */
  function AfterRunMeasures(v: View, now: int, epoch: int, r: TickReads, piId: int): (w: View)
    requires WellFormed(v)
    ensures WellFormed(w) && w.file == v.file && w.counter == NextCounter(v.counter)
    ensures w.actions == v.actions + [Sleep(PhaseWait(now, epoch))]
  {
    AfterTick(v.(actions := v.actions + [Sleep(PhaseWait(now, epoch))]), r, piId)
  }

  /** One iteration of the switch-polling loop of `main`. */
  function AfterPoll(v: View, switchHigh: bool, pushed: bool, now: int, epoch: int, r: TickReads, piId: int): (w: View)
    requires WellFormed(v)
    ensures WellFormed(w) && w.file == v.file
  {
    if switchHigh then
      AfterRunMeasures(if pushed then v else SetLed(v, LED_INTERVAL_MEASURE), now, epoch, r, piId)
    else
      var v1 := SetLed(v, LED_INTERVAL_STOPPED);
      v1.(actions := v1.actions + [Sleep(SWITCH_LOW_DELAY_MS)])
  }

  // ------------------------------------------------------------ properties

  /**
   * A tick that aborts changes neither buffer and sets the LED interval to
   * 20; a tick that passes appends its one value to each channel of both
   * buffers.
   */
  lemma TickEffect(v: View, r: TickReads, piId: int)
    requires WellFormed(v)
    ensures var w := AfterTick(v, r, piId);
      && WellFormed(w) && w.file == v.file && w.actions == v.actions
      && w.counter == NextCounter(v.counter)
      && match TickSample(v.counter, r, piId)
         case None =>
           && w.log == v.log && w.send == v.send
           && w.led == LED_INTERVAL_SENSOR_ERROR && w.ledSets == v.ledSets + [LED_INTERVAL_SENSOR_ERROR]
         case Some(s) =>
           && w.led == v.led && w.ledSets == v.ledSets
           && forall i :: 0 <= i < CHANNEL_COUNT ==>
                && w.log[i] == v.log[i] + [s.At(ORDER[i])]
                && w.send[i] == v.send[i] + [s.At(ORDER[i])]
  {
  }

  /**
   * `save_data` always leaves the log buffer empty; it writes one line, with
   * the channels' means in header order, exactly when every channel had a
   * reading, and drops the readings otherwise.
   */
  lemma SaveEffect(v: View, stamp: int)
    ensures var w := AfterSave(v, stamp);
      && w.log == EMPTY && w.send == v.send
      && (AllNonEmpty(v.log) ==>
            && |w.file| == |v.file| + 1 && w.file[..|v.file|] == v.file
            && w.file[|v.file|].stamp == stamp && |w.file[|v.file|].means| == |v.log|
            && forall i :: 0 <= i < |v.log| ==> w.file[|v.file|].means[i] == Average(v.log[i]))
      && (!AllNonEmpty(v.log) ==> w.file == v.file)
  {
  }

  /** Two saves with no tick between them write at most one line. */
  lemma SecondSaveWritesNothing(v: View, stamp1: int, stamp2: int)
    ensures AfterSave(AfterSave(v, stamp1), stamp2).file == AfterSave(v, stamp1).file
  {
    assert !AllNonEmpty(EMPTY) by {
      assert EMPTY[0] == [];
    }
  }

  /**
   * `send_to_lora` with an empty channel changes nothing and calls nothing;
   * otherwise it empties the send buffer and makes the offset wait and the
   * calls, all with the same timestamp and means.
   */
  lemma SendEffect(v: View, stamp: int, transport: nat -> Reply, piId: int, pythonHat: bool)
    requires WellFormed(v)
    ensures var w := AfterSend(v, stamp, transport, piId, pythonHat);
      && w.log == v.log && w.file == v.file && w.led == v.led
      && (!AllNonEmpty(v.send) ==> w == v && SendResult(v, stamp, transport, piId, pythonHat) == NoData)
      && (AllNonEmpty(v.send) ==>
            var n := SendResult(v, stamp, transport, piId, pythonHat).calls;
            var u := SentUplink(v, stamp, piId, pythonHat).value;
            && w.send == EMPTY
            && 1 <= n <= MAX_CALLS
            && w.actions == v.actions + Offset(piId) + Attempts(u, n)
            && u.stamp == stamp && !u.isTest
            && forall i :: 0 <= i < CHANNEL_COUNT ==> u.means.At(ORDER[i]) == Average(v.send[i]))
  {
    if AllNonEmpty(v.send) {
      var u := SentUplink(v, stamp, piId, pythonHat).value;
      CallsFromMeets(CallReply(u, transport), 0);
    }
  }

  /** `send_data` sets the interval to 0.1, then to 1, whatever the outcome. */
  lemma SendDataLed(v: View, stamp: int, transport: nat -> Reply, piId: int, pythonHat: bool)
    requires WellFormed(v)
    ensures AfterSendData(v, stamp, transport, piId, pythonHat).ledSets == v.ledSets + [LED_INTERVAL_SEND, LED_INTERVAL_MEASURE]
    ensures AfterSendData(v, stamp, transport, piId, pythonHat).led == LED_INTERVAL_MEASURE
  {
  }

  /**
   * The polling loop sets interval 1 only on a rising edge of the switch and
   * then measures; while the switch is low it sets 3 and waits 5 s.
   */
  lemma PollEffect(v: View, switchHigh: bool, pushed: bool, now: int, epoch: int, r: TickReads, piId: int)
    requires WellFormed(v)
    ensures var w := AfterPoll(v, switchHigh, pushed, now, epoch, r, piId);
      && (switchHigh ==>
            w.ledSets == v.ledSets + (if pushed then [] else [LED_INTERVAL_MEASURE])
                                   + (if TickSample(v.counter, r, piId).None? then [LED_INTERVAL_SENSOR_ERROR] else []))
      && (switchHigh ==>
            && w.actions == v.actions + [Sleep(PhaseWait(now, epoch))] && w.counter == NextCounter(v.counter)
            && w.file == v.file)
      && (!switchHigh ==>
            && w.ledSets == v.ledSets + [LED_INTERVAL_STOPPED] && w.led == LED_INTERVAL_STOPPED
            && w.log == v.log && w.send == v.send && w.counter == v.counter
            && w.actions == v.actions + [Sleep(SWITCH_LOW_DELAY_MS)])
  {
  }

  /** The frame of `send_to_lora` can be packed when the buffered readings are in range. */
  lemma SendableWhenInRange(v: View, stamp: int, piId: int, pythonHat: bool)
    requires WellFormed(v) && AllNonEmpty(v.send) && Payload.IsU32(stamp)
    requires forall i, k :: 0 <= i < 4 && 0 <= k < |v.send[i]| ==> -327.0 <= v.send[i][k] <= 327.0
    requires forall k :: 0 <= k < |v.send[4]| ==> -32.0 <= v.send[4][k] <= 32.0
    ensures Packs(SentUplink(v, stamp, piId, pythonHat).value)
  {
    var means := Averages(v.send);
    forall i | 0 <= i < 4
      ensures -327.0 <= means[i] <= 327.0
    {
      AverageWithin(v.send[i], -327.0, 327.0);
    }
    AverageWithin(v.send[4], -32.0, 32.0);
    Payload.HundredthsFit(means[0]);
    Payload.HundredthsFit(means[1]);
    Payload.HundredthsFit(means[2]);
    Payload.HundredthsFit(means[3]);
    Payload.WindFit(means[4]);
  }

  // ------------------------------------------------------------ the object

  /**
   * The means `send_to_lora` computes from the send buffer, channel by
   * channel; None where the average of an empty list raises.
   */
  method BufferMeans(values: ChannelLists) returns (means: Option<Sample>)
    ensures means == if AllNonEmpty(values.Snapshot()) then Some(SampleOf(Averages(values.Snapshot()))) else None
  {
    ghost var snap := values.Snapshot();
    var radiation := Mean(values.radiation.items);
    var temp := Mean(values.temperature.items);
    var tempRadiant := Mean(values.globe.items);
    var humidity := Mean(values.humidity.items);
    var windSpeed := Mean(values.wind.items);
    if radiation.None? || temp.None? || tempRadiant.None? || humidity.None? || windSpeed.None? {
      assert snap[0] == [] || snap[1] == [] || snap[2] == [] || snap[3] == [] || snap[4] == [];
      return None;
    }
    assert AllNonEmpty(snap);
    means := Some(Sample(radiation.value, temp.value, tempRadiant.value, humidity.value, windSpeed.value));
    assert means.value == SampleOf(Averages(snap));
  }

  /** The module's globals. */
  class Pipeline {
    const piId: int           // Configuration.RASPBERRY_PI_ID, also `device_id` once `main` has run
    const pythonHat: bool     // Configuration.RASPBERRY_PI_IS_PYTHON_HAT
    const epoch: int          // `t0`, taken when the module is loaded
    var valuesToLog: ChannelLists
    var valuesToSend: ChannelLists
    var measuresCounter: int
    var ledInterval: real
    ghost var ledSets: seq<real>
    var dataFile: seq<Row>
    var actions: seq<Action>

    /** The two buffers are separate dictionaries of separate lists. */
    ghost predicate Valid()
      reads this`valuesToLog, this`valuesToSend
    {
      && valuesToLog.Valid() && valuesToSend.Valid()
      && valuesToLog.Lists() !! valuesToSend.Lists()
    }

    ghost function State(): View
      reads this, valuesToLog.Lists(), valuesToSend.Lists()
    {
      View(valuesToLog.Snapshot(), valuesToSend.Snapshot(), measuresCounter,
           ledInterval, ledSets, dataFile, actions)
    }

    constructor (piId: int, pythonHat: bool, epoch: int)
      ensures Valid() && this.piId == piId && this.pythonHat == pythonHat && this.epoch == epoch
      ensures State() == View(EMPTY, EMPTY, INITIAL_COUNTER, LED_INTERVAL_MEASURE, [], [], [])
    {
      this.piId := piId;
      this.pythonHat := pythonHat;
      this.epoch := epoch;
      valuesToLog := new ChannelLists();
      valuesToSend := new ChannelLists();
      measuresCounter := INITIAL_COUNTER;
      ledInterval := LED_INTERVAL_MEASURE;
      ledSets := [];
      dataFile := [];
      actions := [];
    }

    /** `getValuesToLog`: the buffer itself, not a copy; the same in both variants of the pipeline. */
    method GetValuesToLog() returns (res: ChannelLists)
      ensures res == valuesToLog
    {
      res := valuesToLog;
    }

    /** `setValuesToLog` */
    method SetValuesToLog(values: ChannelLists)
      requires Valid() && values.Valid() && values.Lists() !! valuesToSend.Lists()
      modifies this
      ensures Valid() && valuesToLog == values && valuesToSend == old(valuesToSend)
      ensures State() == old(State()).(log := values.Snapshot())
    {
      valuesToLog := values;
    }

    /** `innitValuesToLog`, installing a new dictionary of empty lists. */
    method InnitValuesToLog()
      requires Valid()
      modifies this
      ensures Valid() && fresh(valuesToLog.Lists()) && valuesToSend == old(valuesToSend)
      ensures State() == old(State()).(log := EMPTY)
    {
      var empty := new ChannelLists();
      SetValuesToLog(empty);
    }

    /** `getValuesToSend`: the buffer itself, not a copy; the same in both variants of the pipeline. */
    method GetValuesToSend() returns (res: ChannelLists)
      ensures res == valuesToSend
    {
      res := valuesToSend;
    }

    /** `setValuesToSend` */
    method SetValuesToSend(values: ChannelLists)
      requires Valid() && values.Valid() && values.Lists() !! valuesToLog.Lists()
      modifies this
      ensures Valid() && valuesToSend == values && valuesToLog == old(valuesToLog)
      ensures State() == old(State()).(send := values.Snapshot())
    {
      valuesToSend := values;
    }

    /** `innitValuesToSend`, installing a new dictionary of empty lists. */
    method InnitValuesToSend()
      requires Valid()
      modifies this
      ensures Valid() && fresh(valuesToSend.Lists()) && valuesToLog == old(valuesToLog)
      ensures State() == old(State()).(send := EMPTY)
    {
      var empty := new ChannelLists();
      SetValuesToSend(empty);
    }

    /** `set_led_interval` */
    method SetLedInterval(interval: real)
      modifies this
      ensures valuesToLog == old(valuesToLog) && valuesToSend == old(valuesToSend)
      ensures State() == SetLed(old(State()), interval)
    {
      ledInterval := interval;
      ledSets := ledSets + [interval];
    }

    /** `measure_data` */
    method MeasureData(r: TickReads) returns (sample: Option<Sample>)
      requires Valid()
      modifies this, valuesToLog.Lists(), valuesToSend.Lists()
      ensures Valid() && valuesToLog == old(valuesToLog) && valuesToSend == old(valuesToSend)
      ensures sample == TickSample(old(measuresCounter), r, piId)
      ensures State() == AfterTick(old(State()), r, piId)
    {
      measuresCounter := measuresCounter + 1;
      var failed := false;
      if measuresCounter > PRESSURE_UPDATE_TICKS {
        measuresCounter := 0;
        // a False from setPressure is only logged
        failed := r.pressure.Raised? || r.push.PushRaised?;
      }
      if !failed {
        failed := r.radiant.Raised? || r.airAndHumidity.Raised?;
      }
      if failed {
        SetLedInterval(LED_INTERVAL_SENSOR_ERROR);
        return None;
      }
      var windSpeed := if r.wind.Raised? then -1.0 else r.wind.v;
      var radiation := if piId == EXTERIOR_PI_ID then 0.0 else r.radiation;
      var s := Sample(radiation, r.airAndHumidity.v.0, r.radiant.v, r.airAndHumidity.v.1, windSpeed);
      // getValuesToLog/getValuesToSend return the buffers themselves: the
      // appends land in them, and the setters re-install the same dictionaries
      valuesToLog.AppendSample(s);
      valuesToSend.AppendSample(s);
      sample := Some(s);
    }

    /** `save_data`, with `innitValuesToLog` installing a new empty dictionary. */
    method SaveData(stamp: int) returns (written: bool)
      requires Valid()
      modifies this
      ensures Valid() && fresh(valuesToLog.Lists()) && valuesToSend == old(valuesToSend)
      ensures written == AllNonEmpty(old(valuesToLog.Snapshot()))
      ensures State() == AfterSave(old(State()), stamp)
    {
      var drained := GetValuesToLog();
      ghost var snap := drained.Snapshot();
      InnitValuesToLog();
      var means: seq<real> := [];
      for i := 0 to CHANNEL_COUNT
        invariant |means| == i
        invariant forall k :: 0 <= k < i ==> snap[k] != [] && means[k] == Average(snap[k])
      {
        var m := Mean(drained.List(ORDER[i]).items);
        if m.None? {
          return false;
        }
        means := means + [m.value];
      }
      assert means == Averages(snap);
      dataFile := dataFile + [Row(stamp, means)];
      written := true;
    }

    /** `send_to_lora`, with `innitValuesToSend` installing a new empty dictionary. */
    method SendToLora(stamp: int, transport: nat -> Reply) returns (outcome: SendOutcome)
      requires Valid()
      modifies this
      ensures Valid() && valuesToLog == old(valuesToLog)
      ensures outcome.Attempted? ==> fresh(valuesToSend.Lists())
      ensures outcome == SendResult(old(State()), stamp, transport, piId, pythonHat)
      ensures State() == AfterSend(old(State()), stamp, transport, piId, pythonHat)
    {
      ghost var before := State();
      var values := GetValuesToSend();
      var sent := BufferMeans(values);
      if sent.None? {
        return NoData;
      }
      assert SentUplink(before, stamp, piId, pythonHat) == Some(Uplink(false, stamp, sent.value, piId, pythonHat));
      InnitValuesToSend();
      var u := Uplink(false, stamp, sent.value, piId, pythonHat);
      // the interior device waits before its first call
      var waits := if piId == INTERIOR_PI_ID then [Sleep(LORA_TIME_BETWEEN_INTERIOR_AND_EXTERIOR_MS)] else [];
      var calls, delivered := Deliver(CallReply(u, transport));
      AfterSendDelivered(before, stamp, transport, piId, pythonHat, u, calls, delivered);
      actions := actions + waits + Attempts(u, calls);
      outcome := Attempted(calls, delivered);
    }

    /** `send_data` */
    method SendData(stamp: int, transport: nat -> Reply) returns (outcome: SendOutcome)
      requires Valid()
      modifies this
      ensures Valid() && valuesToLog == old(valuesToLog)
      ensures outcome == SendResult(old(State()), stamp, transport, piId, pythonHat)
      ensures State() == AfterSendData(old(State()), stamp, transport, piId, pythonHat)
    {
      SetLedInterval(LED_INTERVAL_SEND);
      outcome := SendToLora(stamp, transport);
      SetLedInterval(LED_INTERVAL_MEASURE);
    }

    /** `run_measures`, with `now` the clock before the wait. */
    method RunMeasures(now: int, r: TickReads) returns (sample: Option<Sample>)
      requires Valid()
      modifies this, valuesToLog.Lists(), valuesToSend.Lists()
      ensures Valid() && valuesToLog == old(valuesToLog) && valuesToSend == old(valuesToSend)
      ensures sample == TickSample(old(measuresCounter), r, piId)
      ensures State() == AfterRunMeasures(old(State()), now, epoch, r, piId)
    {
      actions := actions + [Sleep(PhaseWait(now, epoch))];
      sample := MeasureData(r);
    }

    /**
     * One iteration of the `while True` loop of `main`; `pushed` is its local
     * `button_is_pushed`, and `announced` says whether it logged the start of
     * measures.
     */
    method PollOnce(switchHigh: bool, pushed: bool, now: int, r: TickReads) returns (pushedAfter: bool, announced: bool)
      requires Valid()
      modifies this, valuesToLog.Lists(), valuesToSend.Lists()
      ensures Valid() && valuesToLog == old(valuesToLog) && valuesToSend == old(valuesToSend)
      ensures pushedAfter == switchHigh && announced == (switchHigh && !pushed)
      ensures State() == AfterPoll(old(State()), switchHigh, pushed, now, epoch, r, piId)
    {
      pushedAfter, announced := pushed, false;
      if switchHigh {
        if !pushed {
          SetLedInterval(LED_INTERVAL_MEASURE);
          announced := true;
          pushedAfter := true;
        }
        var _ := RunMeasures(now, r);
      } else {
        pushedAfter := false;
        SetLedInterval(LED_INTERVAL_STOPPED);
        actions := actions + [Sleep(SWITCH_LOW_DELAY_MS)];
      }
    }
  }
}
