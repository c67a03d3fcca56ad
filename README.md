# Weather station pipeline and LoRa uplink, in Dafny

This project models the measuring core of a Raspberry Pi weather station. It has three parts.

- **The Python main program.** It samples five quantities once per second: solar radiation, air temperature, globe (radiant) temperature, humidity and wind speed. It appends every reading to two buffers, `values_to_log` and `values_to_send` (which, as written, are one object; see Findings). A scheduled job writes the per-channel means of `values_to_log` as one CSV line. Another sends the means of `values_to_send` over LoRa, with retries and an LED indication.
- **The Python encoder.** It turns the means into the 15-byte frame `'>cIhhhhh'` (a control byte, a 32-bit timestamp and five signed 16-bit values) and into the hex string of that frame.
- **The C++ sender process.** It decodes the hex string back into the frame, queues it on the LMIC radio stack and turns the stack's events into an exit code, with a 15-second join timeout.

The model uses these modules:

- `Config`: the configuration constants. Times are in milliseconds.
- `Outcomes`: an `Option` type.
- `Channels`: the five channels in the CSV header order, the mean, and the buffer dictionary as a class `ChannelLists` of five `SampleList` objects that are appended to in place.
- `Payload`: `send_data`'s scaling, control byte, frame packing (`PackInto`, over an `array`) and hex rendering. The frame's round trip is proved in both directions.
- `LoraNode`: the hex-decoding loop, `onEvent`, the join timeout and `main` of the sender process, as the class `SenderProcess`.
- `Station`: the program's globals as the class `Pipeline`, with `measure_data`, `save_data`, `send_to_lora`, `send_data`, `set_led_interval`, the buffer getters, setters and reset functions, `run_measures` and one iteration of `main`'s polling loop.
  - Each method is proved against a function on a value snapshot (`View`) of the whole state. The properties are proved about those functions.
  - Buffer resets here install new empty lists.
- `AliasedPipeline`: the buffers as the code leaves them. Both globals and every reset are the single template dictionary, so the lists are shared (see Findings).

Sensors, the clock and the uplink transport are parameters:
- a `TickReads` per tick;
- the clock reading before `run_measures`' wait;
- a function from call number to `send_lora.send_data`'s reply;
- for the sender process, the sequence of events and clock readings each scheduler pass produces.

Sleeps and transport calls are recorded, in order, as `Action`s.

On these points the model follows the code as written:
- A successful tick does not restore the LED interval after a sensor error. The 20 s interval stays until another call sets it.
- The phase reference of `run_measures` is the `t0` taken when the module is loaded. `main`'s own `t0` is a local that nothing reads.
- `device_id` and `python_hat` are read after `main` has set them from the configuration. They are the constructor's parameters.
- A reading scaled by 100 (radiation, the two temperatures, humidity) fits its 16-bit field exactly when it lies strictly between -327.69 and 327.68, because `int()` truncates toward zero; so 327.675 still packs and so does -327.685. The wind speed is scaled by 1000, so it fits exactly when it lies strictly between -32.769 and 32.768; a wind of 100 m/s makes the pack fail.

## Model

| member | source | states |
|---|---|---|
| Channels.SampleOf | ps6-pavillon-demo-mi2-master/ps6-pavillon-demo-mi2-master/src/Configuration.py:32 | the channel values come out in the key order of the buffer dictionary, which is the CSV header order |
| Channels.AverageWithin | ps6-pavillon-demo-mi2-master/ps6-pavillon-demo-mi2-master/src/demo_mi2.py:159-163 | the mean of readings that all lie in [lo, hi] lies in [lo, hi] |
| Channels.Mean | ps6-pavillon-demo-mi2-master/ps6-pavillon-demo-mi2-master/src/demo_mi2.py:143 | `statistics.mean`: fails exactly on an empty list, and otherwise times the length gives the sum |
| Channels.SumWithin | ps6-pavillon-demo-mi2-master/ps6-pavillon-demo-mi2-master/src/demo_mi2.py:159-163 | n readings in [lo, hi] sum to between n·lo and n·hi |
| Channels.SampleList.Append | ps6-pavillon-demo-mi2-master/ps6-pavillon-demo-mi2-master/src/demo_mi2.py:116-131 | `list.append` adds the reading at the end and keeps the earlier ones |
| Channels.ChannelLists.constructor | ps6-pavillon-demo-mi2-master/ps6-pavillon-demo-mi2-master/src/Configuration.py:32 | a new dictionary is five distinct empty lists |
| Channels.ChannelLists.AppendSample | ps6-pavillon-demo-mi2-master/ps6-pavillon-demo-mi2-master/src/demo_mi2.py:116-122 | each of the five lists grows by exactly its channel's reading, in key order |
| Payload.HundredthsFit | ps6-pavillon-demo-mi2-master/ps6-pavillon-demo-mi2-master/src/send_lora.py:71-74 | a reading times 100, truncated, fits a signed 16-bit field if and only if it lies strictly between -327.69 and 327.68 |
| Payload.WindFit | ps6-pavillon-demo-mi2-master/ps6-pavillon-demo-mi2-master/src/send_lora.py:75 | the wind speed times 1000, truncated, fits a signed 16-bit field if and only if it lies strictly between -32.769 and 32.768 |
| Payload.Truncate | ps6-pavillon-demo-mi2-master/ps6-pavillon-demo-mi2-master/src/send_lora.py:71-75 | `int()` drops the fractional part: the result is no further from zero than the argument and less than 1 away |
| Payload.Scale | ps6-pavillon-demo-mi2-master/ps6-pavillon-demo-mi2-master/src/send_lora.py:71-75 | each value is its reading times 100 (times 1000 for the wind speed), truncated toward zero |
| Payload.BuildControl | ps6-pavillon-demo-mi2-master/ps6-pavillon-demo-mi2-master/src/send_lora.py:78-89 | the chain of membership tests computes the control byte whose fields are stated by `ControlFields` |
| Payload.Control | ps6-pavillon-demo-mi2-master/ps6-pavillon-demo-mi2-master/src/send_lora.py:78-89 | the control byte carries version 1 in its low bits, the test flag in bit 7 and the device (0 when outside 0..7) in bits 4 to 6 |
| Payload.ControlFields | ps6-pavillon-demo-mi2-master/ps6-pavillon-demo-mi2-master/src/send_lora.py:79-89 | the control byte decodes back to version 1, the test flag and the device, and equals 1 + 16·device + 128 for a test frame; a device outside 0..7 leaves the byte at 1 or 129, which decodes as device 0 |
| Payload.U32RoundTrip | ps6-pavillon-demo-mi2-master/ps6-pavillon-demo-mi2-master/src/send_lora.py:93 | the big-endian 'I' field reads back as the timestamp |
| Payload.U32Canonical | ps6-pavillon-demo-mi2-master/ps6-pavillon-demo-mi2-master/src/send_lora.py:93 | every 4 bytes are the 'I' encoding of what they read as |
| Payload.I16RoundTrip | ps6-pavillon-demo-mi2-master/ps6-pavillon-demo-mi2-master/src/send_lora.py:93 | the big-endian two's-complement 'h' field reads back as the value |
| Payload.I16Canonical | ps6-pavillon-demo-mi2-master/ps6-pavillon-demo-mi2-master/src/send_lora.py:93 | every 2 bytes are the 'h' encoding of what they read as |
| Payload.PutU32 | ps6-pavillon-demo-mi2-master/ps6-pavillon-demo-mi2-master/src/send_lora.py:93 | writes the 'I' field at its offset and leaves every other byte unchanged |
| Payload.PutI16 | ps6-pavillon-demo-mi2-master/ps6-pavillon-demo-mi2-master/src/send_lora.py:93 | writes an 'h' field at its offset and leaves every other byte unchanged |
| Payload.Frame | ps6-pavillon-demo-mi2-master/ps6-pavillon-demo-mi2-master/src/send_lora.py:93 | the '>cIhhhhh' frame is 15 bytes |
| Payload.Unpack | ps6-pavillon-demo-mi2-master/ps6-pavillon-demo-mi2-master/src/send_lora.py:93 | every 15-byte string reads back as an unsigned 32-bit timestamp and five signed 16-bit values |
| Payload.PackInto | ps6-pavillon-demo-mi2-master/ps6-pavillon-demo-mi2-master/src/send_lora.py:92-93 | packing succeeds exactly when the timestamp is unsigned 32-bit and all five values are signed 16-bit, and then the buffer is the frame |
| Payload.FrameFromFields | ps6-pavillon-demo-mi2-master/ps6-pavillon-demo-mi2-master/src/send_lora.py:93 | 15 bytes holding each field at its '>cIhhhhh' offset are the frame |
| Payload.UnpackFrame | ps6-pavillon-demo-mi2-master/ps6-pavillon-demo-mi2-master/src/send_lora.py:93 | unpacking a packed frame gives back its control byte, timestamp and five values |
| Payload.FrameOfUnpack | ps6-pavillon-demo-mi2-master/ps6-pavillon-demo-mi2-master/src/send_lora.py:93 | every 15-byte string is the frame of the fields it unpacks to |
| Payload.Hex | ps6-pavillon-demo-mi2-master/ps6-pavillon-demo-mi2-master/src/send_lora.py:98 | the hex string has two characters per byte, 30 for a frame |
| Payload.HexAt | ps6-pavillon-demo-mi2-master/ps6-pavillon-demo-mi2-master/src/send_lora.py:98 | characters 2k and 2k+1 are the high and low hex digits of byte k |
| Payload.HexIsLowercase | ps6-pavillon-demo-mi2-master/ps6-pavillon-demo-mi2-master/src/send_lora.py:98 | every character is a lowercase hex digit |
| Payload.Encoded | ps6-pavillon-demo-mi2-master/ps6-pavillon-demo-mi2-master/src/send_lora.py:71-98 | a frame exists exactly when the scaled means and timestamp fit their fields, and it unpacks to the control byte, timestamp and scaled means |
| Payload.EncodeData | ps6-pavillon-demo-mi2-master/ps6-pavillon-demo-mi2-master/src/send_lora.py:68-98 | a fresh 15-byte buffer; success exactly when the frame can be packed, and then the buffer is the frame of the scaled means and the string is its hex |
| LoraNode.ParseHex | ps6-pavillon-demo-mi2-master/ps6-pavillon-demo-mi2-master/src/lora/send_lora.cpp:224-227 | each two-character group of the encoder's hex string parses back to its byte |
| LoraNode.ParsePair | ps6-pavillon-demo-mi2-master/ps6-pavillon-demo-mi2-master/src/lora/send_lora.cpp:225 | `%2hhx` succeeds exactly when a hex digit is at the offset; with two digits they are the high and low nibble, with one it is the value |
| LoraNode.DecodeArgument | ps6-pavillon-demo-mi2-master/ps6-pavillon-demo-mi2-master/src/lora/send_lora.cpp:218-227 | a fresh 15-byte buffer whose byte k is group k of the argument wherever that group parses |
| LoraNode.DecodeHexOfFrame | ps6-pavillon-demo-mi2-master/ps6-pavillon-demo-mi2-master/src/lora/send_lora.cpp:224-227 | decoding the hex string of a frame yields that frame |
| LoraNode.DecodedUplink | ps6-pavillon-demo-mi2-master/ps6-pavillon-demo-mi2-master/src/lora/send_lora.cpp:224-227 | the bytes decoded from `send_data`'s hex unpack to the control byte, timestamp and scaled means that were encoded |
| LoraNode.OnEvent | ps6-pavillon-demo-mi2-master/ps6-pavillon-demo-mi2-master/src/lora/send_lora.cpp:112-189 | an event can only set the exit code to -1, never clears `force_exit`, and sets `force_exit` whenever it changes the exit code |
| LoraNode.AfterEvents | ps6-pavillon-demo-mi2-master/ps6-pavillon-demo-mi2-master/src/lora/send_lora.cpp:265 | the events one `os_runloop_once` dispatches keep those three properties |
| LoraNode.AfterPass | ps6-pavillon-demo-mi2-master/ps6-pavillon-demo-mi2-master/src/lora/send_lora.cpp:264-281 | one pass, including the join-timeout test, keeps them too |
| LoraNode.Run | ps6-pavillon-demo-mi2-master/ps6-pavillon-demo-mi2-master/src/lora/send_lora.cpp:264-281 | once `force_exit` is set the loop does nothing; the final exit code is the initial one or -1, and -1 only with `force_exit` |
| LoraNode.EventClasses | ps6-pavillon-demo-mi2-master/ps6-pavillon-demo-mi2-master/src/lora/send_lora.cpp:107-190 | fatal events end the process with -1, informational ones change nothing, TX_COMPLETE ends it with the code unchanged, JOINING and JOINED toggle `is_joining` |
| LoraNode.JoinTimeoutFails | ps6-pavillon-demo-mi2-master/ps6-pavillon-demo-mi2-master/src/lora/send_lora.cpp:271-279 | while joining, a pass after the 15 s deadline ends the process with -1 |
| LoraNode.EventsKeepFailure | ps6-pavillon-demo-mi2-master/ps6-pavillon-demo-mi2-master/src/lora/send_lora.cpp:107-190 | once the exit code is -1, no event changes it |
| LoraNode.RunKeepsFailure | ps6-pavillon-demo-mi2-master/ps6-pavillon-demo-mi2-master/src/lora/send_lora.cpp:264-281 | once the exit code is -1, the event loop ends with -1 |
| LoraNode.EventsExitCodeRange | ps6-pavillon-demo-mi2-master/ps6-pavillon-demo-mi2-master/src/lora/send_lora.cpp:107-190 | the exit code is only ever 0 or -1 |
| LoraNode.CleanExitNeedsTxComplete | ps6-pavillon-demo-mi2-master/ps6-pavillon-demo-mi2-master/src/lora/send_lora.cpp:152-163 | events that stop the process with code 0 include a TX_COMPLETE |
| LoraNode.CleanRunNeedsTxComplete | ps6-pavillon-demo-mi2-master/ps6-pavillon-demo-mi2-master/src/lora/send_lora.cpp:262-294 | a loop that ends with code 0 saw a TX_COMPLETE in some pass |
| LoraNode.SenderProcess.constructor | ps6-pavillon-demo-mi2-master/ps6-pavillon-demo-mi2-master/src/lora/send_lora.cpp:67-70 | the flags start as not exiting, not joining, code 0 |
| LoraNode.SenderProcess.HandleEvent | ps6-pavillon-demo-mi2-master/ps6-pavillon-demo-mi2-master/src/lora/send_lora.cpp:107-190 | the flags after an event are those `onEvent`'s switch gives |
| LoraNode.SenderProcess.Execute | ps6-pavillon-demo-mi2-master/ps6-pavillon-demo-mi2-master/src/lora/send_lora.cpp:212-294 | fewer than 2 arguments returns -1 and changes nothing; a failed GPIO init returns 1 and queues nothing; otherwise the queued frame is the decoded argument, and the result and flags are those of the event loop with its join timeout |
| Station.FirstTickRecalibrates | ps6-pavillon-demo-mi2-master/ps6-pavillon-demo-mi2-master/src/demo_mi2.py:79-88 | the counter starts at 3600, so the first tick pushes the pressure and resets the counter |
| Station.NextCounter | ps6-pavillon-demo-mi2-master/ps6-pavillon-demo-mi2-master/src/demo_mi2.py:84-88 | the counter restarts at 0 exactly on a recalibration (or from -1) and stays within [0, 3600] |
| Station.CounterClimbs | ps6-pavillon-demo-mi2-master/ps6-pavillon-demo-mi2-master/src/demo_mi2.py:84-88 | after a reset the counter grows by one per tick up to 3600 |
| Station.RecalibrationPeriod | ps6-pavillon-demo-mi2-master/ps6-pavillon-demo-mi2-master/src/demo_mi2.py:84-88 | after a recalibration the next one comes exactly 3601 ticks later, with the counter back at 0 |
| Station.LateReadsNeverAbort | ps6-pavillon-demo-mi2-master/ps6-pavillon-demo-mi2-master/src/demo_mi2.py:104-114 | the wind read (even one that raises) and the radiation read never decide whether a tick records its values |
| Station.TickValues | ps6-pavillon-demo-mi2-master/ps6-pavillon-demo-mi2-master/src/demo_mi2.py:104-114 | a passing tick records the sensors' values, -1 for a wind read that raised, and 0 radiation on the exterior device |
| Station.PressureOnlyMattersWhenRaised | ps6-pavillon-demo-mi2-master/ps6-pavillon-demo-mi2-master/src/demo_mi2.py:87-93 | a False from `setPressure` is only logged, and between recalibrations the pressure is not read |
| Station.TickSample | ps6-pavillon-demo-mi2-master/ps6-pavillon-demo-mi2-master/src/demo_mi2.py:84-131 | a tick records nothing exactly when a read of its first `try` raises; radiation is 0 on the exterior device and wind is -1 when its read raised |
| Station.Deliver | ps6-pavillon-demo-mi2-master/ps6-pavillon-demo-mi2-master/src/demo_mi2.py:174-197 | between 1 and 11 calls; every call but the last failed; delivery exactly when the last returned 0; giving up takes all 11 calls |
| Station.RetryOutcomeIsCallsNeeded | ps6-pavillon-demo-mi2-master/ps6-pavillon-demo-mi2-master/src/demo_mi2.py:174-197 | the retry outcome is unique: it is the call-by-call count |
| Station.AlwaysFailingTransport | ps6-pavillon-demo-mi2-master/ps6-pavillon-demo-mi2-master/src/demo_mi2.py:183-197 | a transport that never returns 0 is called exactly 11 times |
| Station.ThirdCallSucceeds | ps6-pavillon-demo-mi2-master/ps6-pavillon-demo-mi2-master/src/demo_mi2.py:174-190 | a transport that first returns 0 on the third call is called exactly 3 times, and the data is delivered |
| Station.RetryOutcome | ps6-pavillon-demo-mi2-master/ps6-pavillon-demo-mi2-master/src/demo_mi2.py:174-197 | fewer than 11 calls means the data was delivered, and a first call that returns 0 is the only call |
| Station.CallReply | ps6-pavillon-demo-mi2-master/ps6-pavillon-demo-mi2-master/src/demo_mi2.py:176 | an uplink whose frame cannot be packed fails on every call; otherwise each call returns what the transport returns |
| Station.Offset | ps6-pavillon-demo-mi2-master/ps6-pavillon-demo-mi2-master/src/demo_mi2.py:172-173 | the interior device waits exactly once, for 30 s, and the exterior device does not wait |
| Station.Attempts | ps6-pavillon-demo-mi2-master/ps6-pavillon-demo-mi2-master/src/demo_mi2.py:176-189 | `calls` calls with the same arguments, first and last a call, alternating with 20 s sleeps |
| Station.PacksIsEncodable | ps6-pavillon-demo-mi2-master/ps6-pavillon-demo-mi2-master/src/send_lora.py:71-93 | `send_data` produces a frame exactly when the timestamp and the scaled means fit their fields |
| Station.PhaseWait | ps6-pavillon-demo-mi2-master/ps6-pavillon-demo-mi2-master/src/demo_mi2.py:285-287 | the wait is in (0, 1000] ms and ends on a whole period since the module's `t0` |
| Station.AfterTick | ps6-pavillon-demo-mi2-master/ps6-pavillon-demo-mi2-master/src/demo_mi2.py:82-131 | a tick writes no line, sleeps nothing, advances the counter, and sets the LED interval at most once, to 20 |
| Station.AfterSave | ps6-pavillon-demo-mi2-master/ps6-pavillon-demo-mi2-master/src/demo_mi2.py:134-152 | a save empties the log buffer, keeps everything else, and appends at most one line |
| Station.AfterSend | ps6-pavillon-demo-mi2-master/ps6-pavillon-demo-mi2-master/src/demo_mi2.py:154-197 | a send leaves the log buffer, file, counter and LED alone, only appends actions, and either empties the send buffer or leaves it as it was |
| Station.AfterSendData | ps6-pavillon-demo-mi2-master/ps6-pavillon-demo-mi2-master/src/demo_mi2.py:243-246 | after `send_data` the LED interval is 1 and the log buffer and file are unchanged |
| Station.AfterRunMeasures | ps6-pavillon-demo-mi2-master/ps6-pavillon-demo-mi2-master/src/demo_mi2.py:285-287 | the phase wait, then one tick: no line written and the counter advanced |
| Station.AfterPoll | ps6-pavillon-demo-mi2-master/ps6-pavillon-demo-mi2-master/src/demo_mi2.py:335-347 | a poll never writes a line |
| Station.TickEffect | ps6-pavillon-demo-mi2-master/ps6-pavillon-demo-mi2-master/src/demo_mi2.py:82-131 | an aborted tick changes neither buffer and sets the LED interval to 20, recording exactly that one setting; a passing one sets no interval and appends its one value to each channel of both buffers |
| Station.SaveEffect | ps6-pavillon-demo-mi2-master/ps6-pavillon-demo-mi2-master/src/demo_mi2.py:134-152 | a save empties the log buffer; it writes one line with the means in header order exactly when every channel had a reading, and otherwise drops the readings |
| Station.SecondSaveWritesNothing | ps6-pavillon-demo-mi2-master/ps6-pavillon-demo-mi2-master/src/demo_mi2.py:134-139 | a second save with no tick since the first writes no line |
| Station.SendEffect | ps6-pavillon-demo-mi2-master/ps6-pavillon-demo-mi2-master/src/demo_mi2.py:154-197 | with an empty channel a send changes nothing and calls nothing; otherwise it empties the send buffer and makes the 30 s wait on device 0, then 1 to 11 calls 20 s apart, each with the same timestamp and means |
| Station.SendDataLed | ps6-pavillon-demo-mi2-master/ps6-pavillon-demo-mi2-master/src/demo_mi2.py:243-246 | `send_data` sets the interval to 0.1 and then to 1, whatever happened in between |
| Station.PollEffect | ps6-pavillon-demo-mi2-master/ps6-pavillon-demo-mi2-master/src/demo_mi2.py:335-347 | a high switch sets interval 1 only on a rising edge and then runs a tick after the phase wait, with no other interval set except the tick's 20 on a sensor error; a high switch writes no line; a low one sets 3 and waits 5 s |
| Station.SendableWhenInRange | ps6-pavillon-demo-mi2-master/ps6-pavillon-demo-mi2-master/src/demo_mi2.py:159-172 | if all buffered readings lie within ±327 (wind within ±32) and the timestamp is 32-bit, the means pack |
| Station.BufferMeans | ps6-pavillon-demo-mi2-master/ps6-pavillon-demo-mi2-master/src/demo_mi2.py:158-167 | the five means in channel order exactly when no channel is empty, None otherwise |
| Station.Pipeline.constructor | ps6-pavillon-demo-mi2-master/ps6-pavillon-demo-mi2-master/src/demo_mi2.py:73-79 | two separate empty buffers, counter 3600, LED interval 1, no lines, no actions |
| Station.Pipeline.GetValuesToLog | ps6-pavillon-demo-mi2-master/ps6-pavillon-demo-mi2-master/src/demo_mi2.py:211-216 | returns the log buffer object itself, not a copy |
| Station.Pipeline.SetValuesToLog | ps6-pavillon-demo-mi2-master/ps6-pavillon-demo-mi2-master/src/demo_mi2.py:218-223 | installs the given dictionary as the log buffer and changes nothing else |
| Station.Pipeline.InnitValuesToLog | ps6-pavillon-demo-mi2-master/ps6-pavillon-demo-mi2-master/src/demo_mi2.py:207-208 | the log buffer becomes a new dictionary of empty lists |
| Station.Pipeline.GetValuesToSend | ps6-pavillon-demo-mi2-master/ps6-pavillon-demo-mi2-master/src/demo_mi2.py:229-234 | returns the send buffer object itself, not a copy |
| Station.Pipeline.SetValuesToSend | ps6-pavillon-demo-mi2-master/ps6-pavillon-demo-mi2-master/src/demo_mi2.py:236-241 | installs the given dictionary as the send buffer and changes nothing else |
| Station.Pipeline.InnitValuesToSend | ps6-pavillon-demo-mi2-master/ps6-pavillon-demo-mi2-master/src/demo_mi2.py:225-226 | the send buffer becomes a new dictionary of empty lists |
| Station.Pipeline.SetLedInterval | ps6-pavillon-demo-mi2-master/ps6-pavillon-demo-mi2-master/src/demo_mi2.py:249-253 | the interval becomes the argument and the setting is recorded |
| Station.Pipeline.MeasureData | ps6-pavillon-demo-mi2-master/ps6-pavillon-demo-mi2-master/src/demo_mi2.py:82-131 | returns what the tick records, and the new state is that of `AfterTick` |
| Station.Pipeline.SaveData | ps6-pavillon-demo-mi2-master/ps6-pavillon-demo-mi2-master/src/demo_mi2.py:134-152 | reports whether a line was written (exactly when every channel had a reading), and the new state is that of `AfterSave` |
| Station.Pipeline.SendToLora | ps6-pavillon-demo-mi2-master/ps6-pavillon-demo-mi2-master/src/demo_mi2.py:154-197 | returns the retry outcome, and the new state is that of `AfterSend` |
| Station.Pipeline.SendData | ps6-pavillon-demo-mi2-master/ps6-pavillon-demo-mi2-master/src/demo_mi2.py:243-246 | the send wrapped between intervals 0.1 and 1 |
| Station.Pipeline.RunMeasures | ps6-pavillon-demo-mi2-master/ps6-pavillon-demo-mi2-master/src/demo_mi2.py:285-287 | sleeps the phase wait, then one tick |
| Station.Pipeline.PollOnce | ps6-pavillon-demo-mi2-master/ps6-pavillon-demo-mi2-master/src/demo_mi2.py:335-347 | the new `button_is_pushed` is the switch level; the start is announced only on a rising edge; the new state is that of `AfterPoll` |
| AliasedPipeline.AsWrittenPipeline.constructor | ps6-pavillon-demo-mi2-master/ps6-pavillon-demo-mi2-master/src/demo_mi2.py:77-78 | both buffers are the one template dictionary of empty lists |
| AliasedPipeline.AsWrittenPipeline.GetValuesToLog | ps6-pavillon-demo-mi2-master/ps6-pavillon-demo-mi2-master/src/demo_mi2.py:211-216 | returns the shared dictionary itself |
| AliasedPipeline.AsWrittenPipeline.SetValuesToLog | ps6-pavillon-demo-mi2-master/ps6-pavillon-demo-mi2-master/src/demo_mi2.py:218-223 | installs the given dictionary as the log buffer |
| AliasedPipeline.AsWrittenPipeline.InnitValuesToLog | ps6-pavillon-demo-mi2-master/ps6-pavillon-demo-mi2-master/src/demo_mi2.py:207-208 | re-installing the template changes nothing at all |
| AliasedPipeline.AsWrittenPipeline.GetValuesToSend | ps6-pavillon-demo-mi2-master/ps6-pavillon-demo-mi2-master/src/demo_mi2.py:229-234 | returns the shared dictionary itself |
| AliasedPipeline.AsWrittenPipeline.SetValuesToSend | ps6-pavillon-demo-mi2-master/ps6-pavillon-demo-mi2-master/src/demo_mi2.py:236-241 | installs the given dictionary as the send buffer |
| AliasedPipeline.AsWrittenPipeline.InnitValuesToSend | ps6-pavillon-demo-mi2-master/ps6-pavillon-demo-mi2-master/src/demo_mi2.py:225-226 | re-installing the template changes nothing at all |
| AliasedPipeline.AsWrittenPipeline.MeasureData | ps6-pavillon-demo-mi2-master/ps6-pavillon-demo-mi2-master/src/demo_mi2.py:116-131 | a passing tick appends its value twice to the one shared list of each channel |
| AliasedPipeline.AsWrittenPipeline.SaveData | ps6-pavillon-demo-mi2-master/ps6-pavillon-demo-mi2-master/src/demo_mi2.py:134-152 | writes a line over everything buffered and leaves the buffer as it was |
| AliasedPipeline.AsWrittenPipeline.SendToLora | ps6-pavillon-demo-mi2-master/ps6-pavillon-demo-mi2-master/src/demo_mi2.py:154-197 | makes the same calls as the corrected send but leaves the buffer as it was |
| AliasedPipeline.AsWrittenTick | ps6-pavillon-demo-mi2-master/ps6-pavillon-demo-mi2-master/src/demo_mi2.py:116-131 | as written, a passing tick leaves the two buffers equal, and a tick writes no line |
| AliasedPipeline.AsWrittenSave | ps6-pavillon-demo-mi2-master/ps6-pavillon-demo-mi2-master/src/demo_mi2.py:134-152 | as written, a save keeps both buffers and appends at most one line |
| AliasedPipeline.AsWrittenSend | ps6-pavillon-demo-mi2-master/ps6-pavillon-demo-mi2-master/src/demo_mi2.py:154-197 | as written, a send keeps both buffers and the file and only appends actions |
| AliasedPipeline.AsWrittenTickAppendsTwice | ps6-pavillon-demo-mi2-master/ps6-pavillon-demo-mi2-master/src/demo_mi2.py:116-131 | as written, both buffers stay equal and each channel grows by the same value twice |
| AliasedPipeline.AsWrittenResetsKeepReadings | ps6-pavillon-demo-mi2-master/ps6-pavillon-demo-mi2-master/src/demo_mi2.py:207-208 | as written, neither a save nor a send drops a reading |
| AliasedPipeline.AsWrittenSavesRepeat | ps6-pavillon-demo-mi2-master/ps6-pavillon-demo-mi2-master/src/demo_mi2.py:134-152 | as written, two saves without a tick write two lines with the same means |
| AliasedPipeline.SumDoubled | ps6-pavillon-demo-mi2-master/ps6-pavillon-demo-mi2-master/src/demo_mi2.py:116-131 | a list holding each reading twice sums to twice the readings |
| AliasedPipeline.AverageDoubled | ps6-pavillon-demo-mi2-master/ps6-pavillon-demo-mi2-master/src/demo_mi2.py:116-131 | reading each value twice leaves the mean unchanged |
| AliasedPipeline.AsWrittenTickKeepsHistory | ps6-pavillon-demo-mi2-master/ps6-pavillon-demo-mi2-master/src/demo_mi2.py:116-131 | as written, the shared lists hold every reading since start-up, each twice |
| AliasedPipeline.AsWrittenLineAveragesHistory | ps6-pavillon-demo-mi2-master/ps6-pavillon-demo-mi2-master/src/demo_mi2.py:134-152 | as written, a line's means are the means of every reading since start-up |
| AliasedPipeline.AsWrittenSecondLineAveragesHistory | ps6-pavillon-demo-mi2-master/ps6-pavillon-demo-mi2-master/src/demo_mi2.py:77-78 | as written, ticks reading 10 and then 20, with a save after each, write 15 on the second line |
| AliasedPipeline.SecondLineAveragesItsOwnTicks | ps6-pavillon-demo-mi2-master/ps6-pavillon-demo-mi2-master/src/demo_mi2.py:207-208 | with fresh lists at each reset, the same sequence writes 20 on the second line |

## Left out

- Sensor drivers, GPIO, the LED blinking thread and every log message. The sensors are the oracle `TickReads`. Log messages only carry text.
- Time. `time.time()` and `time.sleep` work in float seconds; the model's clock and sleeps are whole milliseconds, so the phase wait of `run_measures` is exact only to 1 ms.
- Floating point. Readings and means are exact reals, and `int()` is truncation toward zero on them. The CSV's `"%.1f"` formatting and the date strings are not modelled: a line is its timestamp and its exact means.
- Concurrency. The scheduler runs `save_data` and `send_data` in their own threads, and the semaphores only guard single reads and writes. The model runs operations one at a time, so interleavings inside an operation are not covered.
- `try_lora_connection`, `start_jobs`, `blink_led`, the cron timings and the CSV header write in `main`. They are start-up and timing code, not the pipeline.
- `send_frame` and the RAK811 library, the `subprocess` call and LMIC itself. `send_lora.send_data`'s reply is an oracle indexed by call number. An unpackable frame makes every call raise.
- Station.TickReads: the pyranometer read sits outside both `try` blocks of `measure_data`, so an exception from it would end `main`'s loop. The model takes that reading as always present.
- Station.TickReads: `anemometer.getMeasure` returning a non-number is not modelled. Its reading is a number or an exception.
- Station.Deliver: the source tests the reply with `is not 0` and `is 0`. This is modelled as equality with 0, which is what CPython does for small integers.
- LoraNode.ParsePair: `sscanf`'s skipping of leading white space, its sign and `0x` prefix handling, and a read past the end of a short argument are not modelled. A group parses one or two hex digits or nothing.
- LoraNode.DecodeArgument: a byte whose group does not parse keeps what `malloc` left there, and the contract says nothing about it.
- LoraNode.Run: the event loop is modelled over a finite trace of scheduler passes, so a run that never sets `force_exit` is not covered. The 1 ms `usleep`, the signal handler and `os_getTime`'s wrap-around are left out. `OSTICKS_PER_SEC` is a parameter.
- AliasedPipeline: only the operations that touch the buffers are modelled as written. The LED, polling and phase logic are the same as in `Station`.

## Findings

| source | as written | input that shows it | evidently intended | confidence | as-written member | corrected member |
|---|---|---|---|---|---|---|
| ps6-pavillon-demo-mi2-master/ps6-pavillon-demo-mi2-master/src/demo_mi2.py:77-78 | both buffers, and every reset in `innitValuesToLog`/`innitValuesToSend` (lines 207-208, 225-226), are the one dictionary `CONSTANT_DATA_STRUCTURE_INIT_VALUES`, whose lists are appended to in place; each tick appends every value twice, no save or send ever empties a list, and each CSV line averages every reading since start-up | a tick reading 10 on every sensor, a save, a tick reading 20, a save: the second line's radiation mean is 15 | each reset starts new empty lists and the two buffers are separate, so a line averages the readings since the previous line (20 here) | high (not executed) | AliasedPipeline.AsWrittenSecondLineAveragesHistory | AliasedPipeline.SecondLineAveragesItsOwnTicks |
