/**
 * The LMIC sender process of src/lora/send_lora.cpp: decoding the hex
 * argument back into the 15-byte frame, the `onEvent` callback that turns
 * radio events into the process's exit flags, and the main loop's join
 * timeout. The radio library itself is an oracle: a trace of the events each
 * run of the LMIC scheduler dispatches and of the clock read after it.
 */
module LoraNode {
  import opened Outcomes
  import Channels
  import Payload

  type Byte = Payload.Byte

  const FRAME_SIZE := 15
  // Seconds the process waits for a join before giving up.
  const JOIN_TIMEOUT := 15

  // ----------------------------------------------------------- hex decoding

  /** A hexadecimal digit as `sscanf`'s `%x` reads it, in either case. */
  function DigitValue(c: char): Option<int>
  {
    if '0' <= c <= '9' then Some(c as int - '0' as int)
    else if 'a' <= c <= 'f' then Some(c as int - 'a' as int + 10)
    else if 'A' <= c <= 'F' then Some(c as int - 'A' as int + 10)
    else None
  }

  /**
   * `sscanf(pos, "%2hhx", &b)` with `pos` at offset `at` of the argument: up to
   * two hex digits; None where no digit is there and `b` is left unassigned.
   */
  function ParsePair(arg: string, at: int): (r: Option<Byte>)
    ensures r.Some? <==> 0 <= at < |arg| && DigitValue(arg[at]).Some?
    ensures r.Some? && at + 1 < |arg| && DigitValue(arg[at + 1]).Some? ==>
      && r.value / 16 == DigitValue(arg[at]).value
      && r.value % 16 == DigitValue(arg[at + 1]).value
    ensures r.Some? && !(at + 1 < |arg| && DigitValue(arg[at + 1]).Some?) ==>
      r.value == DigitValue(arg[at]).value
  {
    if 0 <= at < |arg| && DigitValue(arg[at]).Some? then
      var hi := DigitValue(arg[at]).value;
      if at + 1 < |arg| && DigitValue(arg[at + 1]).Some? then Some(16 * hi + DigitValue(arg[at + 1]).value)
      else Some(hi)
    else None
  }

  lemma LowerDigitValue(d: int)
    requires 0 <= d < 16
    ensures DigitValue(Payload.HEX_DIGITS[d]) == Some(d)
  {
  }

  /** Two lowercase digits of a byte parse back to that byte. */
  lemma ParseDigitsOf(s: string, at: int, b: Byte)
    requires 0 <= at && at + 1 < |s|
    requires s[at] == Payload.HEX_DIGITS[b / 16] && s[at + 1] == Payload.HEX_DIGITS[b % 16]
    ensures ParsePair(s, at) == Some(b)
  {
    LowerDigitValue(b / 16);
    LowerDigitValue(b % 16);
  }

  /** Each two-character group of the encoder's hex string parses back to its byte. */
  lemma ParseHex(bytes: seq<Byte>, k: int)
    requires 0 <= k < |bytes|
    ensures ParsePair(Payload.Hex(bytes), 2 * k) == Some(bytes[k])
  {
    Payload.HexAt(bytes, k);
    ParseDigitsOf(Payload.Hex(bytes), 2 * k, bytes[k]);
  }

  /**
   * The decoding loop of `main`: fifteen groups, advancing two characters each,
   * into a new 15-byte buffer. A group that does not parse leaves its byte as
   * `malloc` left it, which the contract does not fix.
   */
  method DecodeArgument(arg: string) returns (buf: array<Byte>)
    ensures fresh(buf) && buf.Length == FRAME_SIZE
    ensures forall k :: 0 <= k < FRAME_SIZE && ParsePair(arg, 2 * k).Some? ==> buf[k] == ParsePair(arg, 2 * k).value
  {
    buf := new Byte[FRAME_SIZE];
    var pos := 0;
    for count := 0 to FRAME_SIZE
      invariant pos == 2 * count
      invariant forall k :: 0 <= k < count && ParsePair(arg, 2 * k).Some? ==> buf[k] == ParsePair(arg, 2 * k).value
    {
      var b := ParsePair(arg, pos);
      if b.Some? {
        buf[count] := b.value;
      }
      pos := pos + 2;
    }
  }

  /** Decoding the hex string of a frame yields that frame. */
  lemma DecodeHexOfFrame(frame: seq<Byte>, buf: seq<Byte>)
    requires |frame| == FRAME_SIZE && |buf| == FRAME_SIZE
    requires forall k :: 0 <= k < FRAME_SIZE && ParsePair(Payload.Hex(frame), 2 * k).Some? ==>
               buf[k] == ParsePair(Payload.Hex(frame), 2 * k).value
    ensures buf == frame
  {
    forall k | 0 <= k < FRAME_SIZE
      ensures buf[k] == frame[k]
    {
      ParseHex(frame, k);
    }
  }

  /**
   * End to end: the bytes the sender process decodes from the hex string of
   * `send_data` unpack to the control byte, timestamp and scaled means that
   * were encoded.
   */
  lemma DecodedUplink(isTest: bool, stamp: int, s: Channels.Sample, device: int, buf: seq<Byte>)
    requires Payload.Encoded(isTest, stamp, s, device).Some? && |buf| == FRAME_SIZE
    requires var hex := Payload.Hex(Payload.Encoded(isTest, stamp, s, device).value);
      forall k :: 0 <= k < FRAME_SIZE && ParsePair(hex, 2 * k).Some? ==> buf[k] == ParsePair(hex, 2 * k).value
    ensures buf == Payload.Encoded(isTest, stamp, s, device).value
    ensures Payload.Unpack(buf) == Payload.Fields(Payload.Control(isTest, device), stamp, Payload.Scale(s))
  {
    DecodeHexOfFrame(Payload.Encoded(isTest, stamp, s, device).value, buf);
    Payload.UnpackFrame(Payload.Control(isTest, device), stamp, Payload.Scale(s));
  }

  // ----------------------------------------------------------------- events

  /** The LMIC events `onEvent` distinguishes; any other event value is Other. */
  datatype Event =
    | ScanTimeout | BeaconFound | BeaconMissed | BeaconTracked | Joining | Joined | Rfu1
    | JoinFailed | RejoinFailed | TxComplete | LostTsync | Reset | RxComplete | LinkDead | LinkAlive
    | Other(code: int)

  /** The process's globals `force_exit`, `is_joining` and `exit_code`. */
  datatype Flags = Flags(forceExit: bool, isJoining: bool, exitCode: int)

  const INITIAL_FLAGS := Flags(false, false, 0)

  /** The `switch` of `onEvent`. */
  function OnEvent(s: Flags, ev: Event): (t: Flags)
    ensures t.exitCode == s.exitCode || t.exitCode == -1
    ensures s.forceExit ==> t.forceExit
    ensures t.exitCode != s.exitCode ==> t.forceExit
  {
    match ev
    case ScanTimeout => s.(forceExit := true, exitCode := -1)
    case BeaconFound => s
    case BeaconMissed => s
    case BeaconTracked => s
    case Joining => s.(isJoining := true)
    case Joined => s.(isJoining := false)
    case Rfu1 => s
    case JoinFailed => s.(forceExit := true, exitCode := -1)
    case RejoinFailed => s.(forceExit := true, exitCode := -1)
    case TxComplete => s.(forceExit := true)
    case LostTsync => s.(forceExit := true, exitCode := -1)
    case Reset => s
    case RxComplete => s
    case LinkDead => s.(forceExit := true, exitCode := -1)
    case LinkAlive => s
    case Other(_) => s.(forceExit := true, exitCode := -1)
  }

  predicate IsFatal(ev: Event)
  {
    ev.ScanTimeout? || ev.JoinFailed? || ev.RejoinFailed? || ev.LostTsync? || ev.LinkDead? || ev.Other?
  }

  predicate IsInformational(ev: Event)
  {
    ev.BeaconFound? || ev.BeaconMissed? || ev.BeaconTracked? || ev.Rfu1? || ev.Reset? || ev.RxComplete? || ev.LinkAlive?
  }

  /**
   * What each kind of event does: a fatal event ends the process with -1, an
   * informational one changes nothing, a completed transmission ends it with
   * the exit code unchanged, and joining toggles `is_joining`.
   */
  lemma EventClasses(s: Flags, ev: Event)
    ensures IsFatal(ev) ==> OnEvent(s, ev) == s.(forceExit := true, exitCode := -1)
    ensures IsInformational(ev) ==> OnEvent(s, ev) == s
    ensures ev.TxComplete? ==> OnEvent(s, ev) == s.(forceExit := true)
    ensures ev.Joining? ==> OnEvent(s, ev) == s.(isJoining := true)
    ensures ev.Joined? ==> OnEvent(s, ev) == s.(isJoining := false)
    ensures OnEvent(s, ev).exitCode in {s.exitCode, -1}
    ensures OnEvent(s, ev).forceExit == (s.forceExit || !(IsInformational(ev) || ev.Joining? || ev.Joined?))
  {
  }

  // ------------------------------------------------------------- main loop

  /** One pass of `while(!force_exit)`: the events the scheduler dispatched, then the clock. */
  datatype Pass = Pass(events: seq<Event>, now: int)

  /**
   * The events of one pass, in order. The exit code can only become -1, and
   * only together with `force_exit`, which is never cleared.
   */
  function AfterEvents(s: Flags, evs: seq<Event>): (t: Flags)
    ensures t.exitCode == s.exitCode || t.exitCode == -1
    ensures s.forceExit ==> t.forceExit
    ensures t.exitCode != s.exitCode ==> t.forceExit
    decreases |evs|
  {
    if evs == [] then s else AfterEvents(OnEvent(s, evs[0]), evs[1..])
  }

  /** `starttime + sec2osticks(JOIN_TIMEOUT) < os_getTime()` */
  predicate JoinTimedOut(start: int, now: int, ticksPerSecond: nat)
  {
    start + JOIN_TIMEOUT * ticksPerSecond < now
  }

  /** One pass: the dispatched events, then the join-timeout test. */
  function AfterPass(s: Flags, p: Pass, start: int, ticksPerSecond: nat): (t: Flags)
    ensures t.exitCode == s.exitCode || t.exitCode == -1
    ensures s.forceExit ==> t.forceExit
    ensures t.exitCode != s.exitCode ==> t.forceExit
  {
    var t := AfterEvents(s, p.events);
    if t.isJoining && JoinTimedOut(start, p.now, ticksPerSecond) then t.(forceExit := true, exitCode := -1) else t
  }

  /** The loop runs until `force_exit` is set, or until the trace of passes ends. */
  function Run(s: Flags, passes: seq<Pass>, start: int, ticksPerSecond: nat): (t: Flags)
    ensures s.forceExit ==> t == s
    ensures t.exitCode == s.exitCode || t.exitCode == -1
    ensures t.exitCode != s.exitCode ==> t.forceExit
    decreases |passes|
  {
    if s.forceExit || passes == [] then s else Run(AfterPass(s, passes[0], start, ticksPerSecond), passes[1..], start, ticksPerSecond)
  }

  /** While joining, a pass whose clock is past the deadline ends the process with -1. */
  lemma JoinTimeoutFails(s: Flags, p: Pass, start: int, ticksPerSecond: nat)
    requires AfterEvents(s, p.events).isJoining && JoinTimedOut(start, p.now, ticksPerSecond)
    ensures AfterPass(s, p, start, ticksPerSecond).forceExit
    ensures AfterPass(s, p, start, ticksPerSecond).exitCode == -1
  {
  }

  /** Every assignment to `exit_code` stores -1, so once -1 it stays -1. */
  lemma {:induction false} EventsKeepFailure(s: Flags, evs: seq<Event>)
    requires s.exitCode == -1
    ensures AfterEvents(s, evs).exitCode == -1
    decreases |evs|
  {
    if evs != [] {
      EventsKeepFailure(OnEvent(s, evs[0]), evs[1..]);
    }
  }

  lemma {:induction false} RunKeepsFailure(s: Flags, passes: seq<Pass>, start: int, ticksPerSecond: nat)
    requires s.exitCode == -1
    ensures Run(s, passes, start, ticksPerSecond).exitCode == -1
    decreases |passes|
  {
    if !s.forceExit && passes != [] {
      EventsKeepFailure(s, passes[0].events);
      RunKeepsFailure(AfterPass(s, passes[0], start, ticksPerSecond), passes[1..], start, ticksPerSecond);
    }
  }

  /** The exit code is only ever 0 or -1. */
  lemma {:induction false} EventsExitCodeRange(s: Flags, evs: seq<Event>)
    requires s.exitCode in {0, -1}
    ensures AfterEvents(s, evs).exitCode in {0, -1}
    decreases |evs|
  {
    if evs != [] {
      EventsExitCodeRange(OnEvent(s, evs[0]), evs[1..]);
    }
  }

  /** A run that stops with exit code 0 stopped because of a completed transmission. */
  lemma {:induction false} CleanExitNeedsTxComplete(s: Flags, evs: seq<Event>)
    requires !s.forceExit && s.exitCode == 0
    requires AfterEvents(s, evs).forceExit && AfterEvents(s, evs).exitCode == 0
    ensures TxComplete in evs
    decreases |evs|
  {
    if evs != [] {
      var t := OnEvent(s, evs[0]);
      if evs[0] != TxComplete {
        CleanExitNeedsTxComplete(t, evs[1..]);
      }
    }
  }

  /** Exit code 0 at the end of a run from the initial flags means some pass saw TxComplete. */
  lemma {:induction false} CleanRunNeedsTxComplete(s: Flags, passes: seq<Pass>, start: int, ticksPerSecond: nat)
    requires !s.forceExit && s.exitCode == 0
    requires Run(s, passes, start, ticksPerSecond).forceExit && Run(s, passes, start, ticksPerSecond).exitCode == 0
    ensures exists i :: 0 <= i < |passes| && TxComplete in passes[i].events
    decreases |passes|
  {
    var t := AfterPass(s, passes[0], start, ticksPerSecond);
    var e := AfterEvents(s, passes[0].events);
    if e.forceExit {
      CleanExitNeedsTxComplete(s, passes[0].events);
    } else {
      assert !t.forceExit;
      CleanRunNeedsTxComplete(t, passes[1..], start, ticksPerSecond);
      var i :| 0 <= i < |passes[1..]| && TxComplete in passes[1..][i].events;
      assert TxComplete in passes[i + 1].events;
    }
  }

  /** The globals of the sender process, with the frame it queued. */
  class SenderProcess {
    var forceExit: bool
    var isJoining: bool
    var exitCode: int
    var queued: seq<Byte>

    constructor ()
      ensures State() == INITIAL_FLAGS && queued == []
    {
      forceExit, isJoining, exitCode := false, false, 0;
      queued := [];
    }

    function State(): Flags
      reads this
    {
      Flags(forceExit, isJoining, exitCode)
    }

    /** `onEvent` */
    method HandleEvent(ev: Event)
      modifies this
      ensures State() == OnEvent(old(State()), ev) && queued == old(queued)
    {
      match ev
      case ScanTimeout =>
        forceExit := true;
        exitCode := -1;
      case BeaconFound =>
      case BeaconMissed =>
      case BeaconTracked =>
      case Joining =>
        isJoining := true;
      case Joined =>
        isJoining := false;
      case Rfu1 =>
      case JoinFailed =>
        forceExit := true;
        exitCode := -1;
      case RejoinFailed =>
        forceExit := true;
        exitCode := -1;
      case TxComplete =>
        forceExit := true;
      case LostTsync =>
        forceExit := true;
        exitCode := -1;
      case Reset =>
      case RxComplete =>
      case LinkDead =>
        forceExit := true;
        exitCode := -1;
      case LinkAlive =>
      case Other(_) =>
        forceExit := true;
        exitCode := -1;
    }

    /**
     * `main`: check the argument count, decode the frame, initialise the GPIO
     * library (`gpioReady` is its outcome), queue the frame, and run the
     * event loop with its join timeout over the given passes.
     */
    method Execute(args: seq<string>, gpioReady: bool, start: int, passes: seq<Pass>, ticksPerSecond: nat)
      returns (code: int)
      modifies this
      ensures |args| < 2 ==> code == -1 && State() == old(State()) && queued == old(queued)
      ensures |args| >= 2 && !gpioReady ==> code == 1 && State() == old(State()) && queued == old(queued)
      ensures |args| >= 2 && gpioReady ==>
        && State() == Run(old(State()), passes, start, ticksPerSecond)
        && code == exitCode
        && |queued| == FRAME_SIZE
        && (forall k :: 0 <= k < FRAME_SIZE && ParsePair(args[1], 2 * k).Some? ==> queued[k] == ParsePair(args[1], 2 * k).value)
    {
      if |args| < 2 {
        return -1;
      }
      var buf := DecodeArgument(args[1]);
      if !gpioReady {
        return 1;
      }
      queued := buf[..];
      ghost var frame := buf[..];
      var i := 0;
      while !forceExit && i < |passes|
        invariant 0 <= i <= |passes|
        invariant Run(old(State()), passes, start, ticksPerSecond) == Run(State(), passes[i..], start, ticksPerSecond)
        invariant queued == frame
        decreases |passes| - i
      {
        var evs := passes[i].events;
        ghost var before := State();
        for j := 0 to |evs|
          invariant AfterEvents(State(), evs[j..]) == AfterEvents(before, evs)
          invariant queued == frame
        {
          HandleEvent(evs[j]);
          assert evs[j..][1..] == evs[j + 1..];
        }
        if isJoining && JoinTimedOut(start, passes[i].now, ticksPerSecond) {
          forceExit := true;
          exitCode := -1;
        }
        assert passes[i..][1..] == passes[i + 1..];
        i := i + 1;
      }
      code := exitCode;
    }
  }
}
