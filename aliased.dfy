/**
 * The buffers of src/demo_mi2.py as written. Both globals start as the one
 * dictionary `Configuration.CONSTANT_DATA_STRUCTURE_INIT_VALUES`, every reset
 * installs that same dictionary again, and readings are appended to its lists
 * in place. So the log and send buffers are one object, each tick appends
 * its values twice, and no reset ever empties anything.
 *
 * Only the operations that touch the buffers are modelled here; the rest of
 * the pipeline is the same as in module Station.
 */
module AliasedPipeline {
  import opened Outcomes
  import opened Config
  import opened Channels
  import opened Station

  // ------------------------------------------------- the pipeline as written

  /** `measure_data` as written: one append through each of two names for the same lists. */
  function AsWrittenTick(v: View, r: TickReads, piId: int): (w: View)
    requires WellFormed(v)
    ensures WellFormed(w) && w.file == v.file && w.actions == v.actions
    ensures w.counter == NextCounter(v.counter)
    ensures TickSample(v.counter, r, piId).Some? ==> w.log == w.send
  {
    var v1 := v.(counter := NextCounter(v.counter));
    match TickSample(v.counter, r, piId)
    case None => SetLed(v1, LED_INTERVAL_SENSOR_ERROR)
    case Some(s) =>
      var both := Appended(Appended(v.log, s), s);
      v1.(log := both, send := both)
  }

  /** `save_data` as written: the reset re-installs the same lists, so nothing is dropped. */
  function AsWrittenSave(v: View, stamp: int): (w: View)
    ensures w.log == v.log && w.send == v.send
    ensures |v.file| <= |w.file| <= |v.file| + 1 && w.file[..|v.file|] == v.file
  {
    v.(file := if AllNonEmpty(v.log) then v.file + [Row(stamp, Averages(v.log))] else v.file)
  }

  /** `send_to_lora` as written: the calls are made, but the send buffer keeps its readings. */
  function AsWrittenSend(v: View, stamp: int, transport: nat -> Reply, piId: int, pythonHat: bool): (w: View)
    requires WellFormed(v)
    ensures w.log == v.log && w.send == v.send && w.file == v.file
    ensures |v.actions| <= |w.actions| && w.actions[..|v.actions|] == v.actions
  {
    match SentUplink(v, stamp, piId, pythonHat)
    case None => v
    case Some(u) =>
      CallsFromMeets(CallReply(u, transport), 0);
      v.(actions := v.actions + Offset(piId) + Attempts(u, CallsNeeded(CallReply(u, transport))))
  }

  lemma AsWrittenSendDelivered(v: View, stamp: int, transport: nat -> Reply, piId: int, pythonHat: bool,
                               u: Uplink, calls: nat, delivered: bool)
    requires WellFormed(v) && SentUplink(v, stamp, piId, pythonHat) == Some(u)
    requires RetryOutcome(CallReply(u, transport), calls, delivered)
    ensures SendResult(v, stamp, transport, piId, pythonHat) == Attempted(calls, delivered)
    ensures AsWrittenSend(v, stamp, transport, piId, pythonHat) ==
      v.(actions := v.actions + Offset(piId) + Attempts(u, calls))
  {
    RetryOutcomeIsCallsNeeded(CallReply(u, transport), calls, delivered);
  }

  /** The module's globals, with the buffers as the source leaves them. */
  class AsWrittenPipeline {
    const piId: int
    const pythonHat: bool
    const epoch: int
    const initValues: ChannelLists   // Configuration.CONSTANT_DATA_STRUCTURE_INIT_VALUES
    var valuesToLog: ChannelLists
    var valuesToSend: ChannelLists
    var measuresCounter: int
    var ledInterval: real
    ghost var ledSets: seq<real>
    var dataFile: seq<Row>
    var actions: seq<Action>

    /** Both buffers are the template dictionary itself. */
    ghost predicate Valid()
      reads this`valuesToLog, this`valuesToSend
    {
      initValues.Valid() && valuesToLog == initValues && valuesToSend == initValues
    }

    ghost function State(): View
      reads this, valuesToLog.Lists(), valuesToSend.Lists()
    {
      View(valuesToLog.Snapshot(), valuesToSend.Snapshot(), measuresCounter,
           ledInterval, ledSets, dataFile, actions)
    }

    constructor (piId: int, pythonHat: bool, epoch: int)
      ensures Valid() && this.piId == piId && this.pythonHat == pythonHat && this.epoch == epoch
      ensures State() == View(EMPTY, EMPTY, INITIAL_COUNTER, LED_INTERVAL_MEASURE, [], [], [])
    {
      this.piId := piId;
      this.pythonHat := pythonHat;
      this.epoch := epoch;
      var template := new ChannelLists();
      initValues := template;
      valuesToLog := template;
      valuesToSend := template;
      measuresCounter := INITIAL_COUNTER;
      ledInterval := LED_INTERVAL_MEASURE;
      ledSets := [];
      dataFile := [];
      actions := [];
    }

    /** `getValuesToLog`: the buffer itself, not a copy. */
    method GetValuesToLog() returns (res: ChannelLists)
      ensures res == valuesToLog
    {
      res := valuesToLog;
    }

    /** `setValuesToLog` */
    method SetValuesToLog(values: ChannelLists)
      modifies this
      ensures valuesToLog == values && valuesToSend == old(valuesToSend)
      ensures State() == old(State()).(log := values.Snapshot())
    {
      valuesToLog := values;
    }

    /** `innitValuesToLog`: re-installs the template, which is already the buffer, so nothing changes. */
    method InnitValuesToLog()
      requires Valid()
      modifies this
      ensures Valid() && State() == old(State())
    {
      SetValuesToLog(initValues);
    }

    /** `getValuesToSend`: the buffer itself, not a copy. */
    method GetValuesToSend() returns (res: ChannelLists)
      ensures res == valuesToSend
    {
      res := valuesToSend;
    }

    /** `setValuesToSend` */
    method SetValuesToSend(values: ChannelLists)
      modifies this
      ensures valuesToSend == values && valuesToLog == old(valuesToLog)
      ensures State() == old(State()).(send := values.Snapshot())
    {
      valuesToSend := values;
    }

    /** `innitValuesToSend`: re-installs the template, which is already the buffer, so nothing changes. */
    method InnitValuesToSend()
      requires Valid()
      modifies this
      ensures Valid() && State() == old(State())
    {
      SetValuesToSend(initValues);
    }

    /** `measure_data` */
    method MeasureData(r: TickReads) returns (sample: Option<Sample>)
      requires Valid()
      modifies this, initValues.Lists()
      ensures Valid()
      ensures sample == TickSample(old(measuresCounter), r, piId)
      ensures State() == AsWrittenTick(old(State()), r, piId)
    {
      measuresCounter := measuresCounter + 1;
      var failed := false;
      if measuresCounter > PRESSURE_UPDATE_TICKS {
        measuresCounter := 0;
        failed := r.pressure.Raised? || r.push.PushRaised?;
      }
      if !failed {
        failed := r.radiant.Raised? || r.airAndHumidity.Raised?;
      }
      if failed {
        ledInterval := LED_INTERVAL_SENSOR_ERROR;
        ledSets := ledSets + [LED_INTERVAL_SENSOR_ERROR];
        return None;
      }
      var windSpeed := if r.wind.Raised? then -1.0 else r.wind.v;
      var radiation := if piId == EXTERIOR_PI_ID then 0.0 else r.radiation;
      var s := Sample(radiation, r.airAndHumidity.v.0, r.radiant.v, r.airAndHumidity.v.1, windSpeed);
      // getValuesToLog/getValuesToSend return the buffers themselves: the
      // appends land in them, and the setters re-install the same dictionaries
      valuesToLog.AppendSample(s);
      valuesToSend.AppendSample(s);
      sample := Some(s);
    }

    /** `save_data` */
    method SaveData(stamp: int) returns (written: bool)
      requires Valid()
      modifies this
      ensures Valid()
      ensures written == AllNonEmpty(old(State()).log)
      ensures State() == AsWrittenSave(old(State()), stamp)
    {
      var drained := GetValuesToLog();
      ghost var snap := drained.Snapshot();
      InnitValuesToLog();
      var means: seq<real> := [];
      for i := 0 to CHANNEL_COUNT
        invariant |means| == i
        invariant forall k :: 0 <= k < i ==> snap[k] != [] && means[k] == Average(snap[k])
      {
        var m := Mean(drained.List(ORDER[i]).items);
        if m.None? {
          return false;
        }
        means := means + [m.value];
      }
      assert means == Averages(snap);
      dataFile := dataFile + [Row(stamp, means)];
      written := true;
    }

    /** `send_to_lora` */
    method SendToLora(stamp: int, transport: nat -> Reply) returns (outcome: SendOutcome)
      requires Valid()
      modifies this
      ensures Valid()
      ensures outcome == SendResult(old(State()), stamp, transport, piId, pythonHat)
      ensures State() == AsWrittenSend(old(State()), stamp, transport, piId, pythonHat)
    {
      ghost var before := State();
      var values := GetValuesToSend();
      var sent := BufferMeans(values);
      if sent.None? {
        return NoData;
      }
      assert SentUplink(before, stamp, piId, pythonHat) == Some(Uplink(false, stamp, sent.value, piId, pythonHat));
      InnitValuesToSend();
      var u := Uplink(false, stamp, sent.value, piId, pythonHat);
      // the interior device waits before its first call
      var waits := if piId == INTERIOR_PI_ID then [Sleep(LORA_TIME_BETWEEN_INTERIOR_AND_EXTERIOR_MS)] else [];
      var calls, delivered := Deliver(CallReply(u, transport));
      AsWrittenSendDelivered(before, stamp, transport, piId, pythonHat, u, calls, delivered);
      actions := actions + waits + Attempts(u, calls);
      outcome := Attempted(calls, delivered);
    }
  }

  // ------------------------------------------------------------- the finding

  /** As written, a passing tick appends its value twice to the one shared list of each channel. */
  lemma AsWrittenTickAppendsTwice(v: View, r: TickReads, piId: int)
    requires WellFormed(v) && v.log == v.send
    requires TickSample(v.counter, r, piId).Some?
    ensures var w := AsWrittenTick(v, r, piId); var s := TickSample(v.counter, r, piId).value;
      && w.log == w.send
      && forall i :: 0 <= i < CHANNEL_COUNT ==> w.log[i] == v.log[i] + [s.At(ORDER[i]), s.At(ORDER[i])]
  {
  }

  /** As written, neither a save nor a send drops a single reading. */
  lemma AsWrittenResetsKeepReadings(v: View, stamp: int, transport: nat -> Reply, piId: int, pythonHat: bool)
    requires WellFormed(v)
    ensures AsWrittenSave(v, stamp).log == v.log
    ensures AsWrittenSend(v, stamp, transport, piId, pythonHat).send == v.send
  {
  }

  /** As written, once every channel has a reading, every save writes a line, ticks or no ticks. */
  lemma AsWrittenSavesRepeat(v: View, stamp1: int, stamp2: int)
    requires AllNonEmpty(v.log)
    ensures AsWrittenSave(AsWrittenSave(v, stamp1), stamp2).file ==
      v.file + [Row(stamp1, Averages(v.log)), Row(stamp2, Averages(v.log))]
  {
  }

  /** Each reading of `s` twice in a row: a shared list after the ticks that read `s`. */
  function Doubled(s: seq<real>): (d: seq<real>)
    ensures |d| == 2 * |s|
  {
    if s == [] then [] else Doubled(s[..|s| - 1]) + [s[|s| - 1], s[|s| - 1]]
  }

  lemma {:induction false} SumDoubled(s: seq<real>)
    ensures Sum(Doubled(s)) == 2.0 * Sum(s)
  {
    if s != [] {
      var init, x := s[..|s| - 1], s[|s| - 1];
      assert s == init + [x];
      assert Doubled(s) == Doubled(init) + [x] + [x];
      SumDoubled(init);
      SumAppend(init, x);
      SumAppend(Doubled(init), x);
      SumAppend(Doubled(init) + [x], x);
    }
  }

  /** Reading every value twice leaves the mean unchanged. */
  lemma AverageDoubled(s: seq<real>)
    requires s != []
    ensures Average(Doubled(s)) == Average(s)
  {
    SumDoubled(s);
  }

  /**
   * As written, a passing tick keeps the shared lists holding every reading
   * since start-up twice: `history` is what the ticks read, channel by channel.
   */
  lemma AsWrittenTickKeepsHistory(v: View, r: TickReads, piId: int, history: seq<seq<real>>)
    requires WellFormed(v) && v.log == v.send && |history| == CHANNEL_COUNT
    requires forall i :: 0 <= i < CHANNEL_COUNT ==> v.log[i] == Doubled(history[i])
    requires TickSample(v.counter, r, piId).Some?
    ensures var w := AsWrittenTick(v, r, piId); var s := TickSample(v.counter, r, piId).value;
      forall i :: 0 <= i < CHANNEL_COUNT ==> w.log[i] == Doubled(history[i] + [s.At(ORDER[i])])
  {
    var s := TickSample(v.counter, r, piId).value;
    forall i | 0 <= i < CHANNEL_COUNT
      ensures AsWrittenTick(v, r, piId).log[i] == Doubled(history[i] + [s.At(ORDER[i])])
    {
      assert (history[i] + [s.At(ORDER[i])])[..|history[i]|] == history[i];
    }
  }

  /**
   * As written, a line's means are the means of every reading since start-up,
   * not of the readings since the previous line.
   */
  lemma AsWrittenLineAveragesHistory(v: View, history: seq<seq<real>>, stamp: int)
    requires WellFormed(v) && |history| == CHANNEL_COUNT
    requires forall i :: 0 <= i < CHANNEL_COUNT ==> history[i] != [] && v.log[i] == Doubled(history[i])
    ensures var w := AsWrittenSave(v, stamp);
      && |w.file| == |v.file| + 1
      && forall i :: 0 <= i < CHANNEL_COUNT ==> w.file[|v.file|].means[i] == Average(history[i])
  {
    forall i | 0 <= i < CHANNEL_COUNT
      ensures v.log[i] != [] && Average(v.log[i]) == Average(history[i])
    {
      AverageDoubled(history[i]);
    }
  }

  /** The reads of a tick that sees `x` on every sensor. */
  function Steady(x: real): TickReads
  {
    TickReads(Value(0.0), Accepted, Value(x), Value((x, x)), Value(x), x)
  }

  /** The first state after start-up, with the counter already reset. */
  const START := View(EMPTY, EMPTY, 0, LED_INTERVAL_MEASURE, [], [], [])

  /**
   * As written: a tick reading 10, a save, a tick reading 20 and a save write
   * 15 as the second line's first mean, the average of everything since
   * start-up.
   */
  lemma AsWrittenSecondLineAveragesHistory()
    ensures var v1 := AsWrittenSave(AsWrittenTick(START, Steady(10.0), INTERIOR_PI_ID), 0);
      var v2 := AsWrittenSave(AsWrittenTick(v1, Steady(20.0), INTERIOR_PI_ID), 1);
      |v2.file| == 2 && v2.file[1].means[0] == 15.0
  {
    var v1 := AsWrittenSave(AsWrittenTick(START, Steady(10.0), INTERIOR_PI_ID), 0);
    assert v1.log[0] == [10.0, 10.0];
    var t2 := AsWrittenTick(v1, Steady(20.0), INTERIOR_PI_ID);
    assert t2.log[0] == [10.0, 10.0, 20.0, 20.0];
    assert Sum([10.0, 10.0, 20.0, 20.0]) == 60.0 by {
      assert [10.0, 10.0, 20.0, 20.0][..3] == [10.0, 10.0, 20.0];
      assert [10.0, 10.0, 20.0][..2] == [10.0, 10.0];
      assert [10.0, 10.0][..1] == [10.0];
    }
  }

  /** With fresh empty lists at each reset, the same sequence writes 20, the second tick's own value. */
  lemma SecondLineAveragesItsOwnTicks()
    ensures var v1 := AfterSave(AfterTick(START, Steady(10.0), INTERIOR_PI_ID), 0);
      var v2 := AfterSave(AfterTick(v1, Steady(20.0), INTERIOR_PI_ID), 1);
      |v2.file| == 2 && v2.file[1].means[0] == 20.0
  {
    var v1 := AfterSave(AfterTick(START, Steady(10.0), INTERIOR_PI_ID), 0);
    assert v1.log == EMPTY;
    var t2 := AfterTick(v1, Steady(20.0), INTERIOR_PI_ID);
    assert t2.log[0] == [20.0];
    assert Sum([20.0]) == 20.0 by {
      assert [20.0][..0] == [];
    }
  }
}
