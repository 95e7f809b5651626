/**
 * The command-line settings of the adapter daemon: the key mode derived from
 * the -pin and -touch flags, and the log level named by -log.
 */
module Daemon {
  import opened Wrappers
  import opened Policy

  datatype Level = PanicLevel | FatalLevel | ErrorLevel | WarnLevel | InfoLevel | DebugLevel | TraceLevel

  /** The -log value naming each level. */
  function LevelName(l: Level): string {
    match l
    case PanicLevel => "panic"
    case FatalLevel => "fatal"
    case ErrorLevel => "error"
    case WarnLevel => "warn"
    case InfoLevel => "info"
    case DebugLevel => "debug"
    case TraceLevel => "trace"
  }

  /** The level setLogLevel selects for a -log value, None when it rejects the value. */
  function LevelNamed(name: string): (l: Option<Level>)
    ensures l.Some? ==> LevelName(l.value) == name
  {
    if name == "panic" then Some(PanicLevel)
    else if name == "fatal" then Some(FatalLevel)
    else if name == "error" then Some(ErrorLevel)
    else if name == "warn" then Some(WarnLevel)
    else if name == "info" then Some(InfoLevel)
    else if name == "debug" then Some(DebugLevel)
    else if name == "trace" then Some(TraceLevel)
    else None
  }

  /** Every level is selected by its own name. */
  lemma LevelNamesRoundTrip(l: Level)
    ensures LevelNamed(LevelName(l)) == Some(l)
  {
  }

  /** setLogLevel accepts exactly the seven level names. */
  lemma LevelNamesExact(name: string)
    ensures LevelNamed(name).Some? <==> name in {"panic", "fatal", "error", "warn", "info", "debug", "trace"}
    ensures LevelNamed(name).Some? ==> LevelName(LevelNamed(name).value) == name
  {
  }

  /** The flags given on the command line, each with the value the flag package parsed for it. */
  datatype CommandLine = CommandLine(log: Option<string>, pin: Option<string>, touch: Option<bool>, stop: Option<bool>)

  /** The names flag.Visit records: the flags given on the command line. */
  function GivenFlags(cl: CommandLine): set<string> {
    (if cl.log.Some? then {"log"} else {}) + (if cl.pin.Some? then {"pin"} else {})
    + (if cl.touch.Some? then {"touch"} else {}) + (if cl.stop.Some? then {"stop"} else {})
  }

  /** A flag is recorded exactly when it was given. */
  lemma GivenFlagsMembers(cl: CommandLine)
    ensures "pin" in GivenFlags(cl) <==> cl.pin.Some?
    ensures "touch" in GivenFlags(cl) <==> cl.touch.Some?
    ensures "log" in GivenFlags(cl) <==> cl.log.Some?
    ensures "stop" in GivenFlags(cl) <==> cl.stop.Some?
    ensures GivenFlags(cl) <= {"log", "pin", "touch", "stop"}
  {
    assert "pin" != "log" && "pin" != "touch" && "pin" != "stop";
    assert "touch" != "log" && "touch" != "stop" && "log" != "stop";
  }

  /** The key mode a -pin value selects, None when invalidFlag rejects it. */
  function PinKeymode(pin: string): (m: Option<nat>)
    ensures m.Some? <==> pin in {"none", "once", "always"}
    ensures m.Some? ==> m.value in {KEYMODE_NONE, KEYMODE_PIN_ONCE, KEYMODE_PIN_ALWAYS}
  {
    if pin == "none" then Some(KEYMODE_NONE)
    else if pin == "once" then Some(KEYMODE_PIN_ONCE)
    else if pin == "always" then Some(KEYMODE_PIN_ALWAYS)
    else None
  }

  /**
   * The key mode parseFlags derives: the -pin mode (PIN once without -pin),
   * with the touch bit added whenever -touch is given, whatever its value.
   */
  function KeymodeOf(cl: CommandLine): (m: Option<nat>)
    ensures m.Some? <==> cl.pin.None? || cl.pin.value in {"none", "once", "always"}
  {
    var base := if cl.pin.Some? then PinKeymode(cl.pin.value) else Some(KEYMODE_PIN_ONCE);
    match base
    case None => None
    case Some(m) => Some(if cl.touch.Some? then BitOr(m, KEYMODE_TOUCH) else m)
  }

  /** Adding the touch bit to a PIN mode keeps the PIN bits and sets bit 0. */
  lemma TouchBit(m: nat)
    requires m in {KEYMODE_NONE, KEYMODE_PIN_ONCE, KEYMODE_PIN_ALWAYS}
    ensures BitOr(m, KEYMODE_TOUCH) == m + 1
  {
    if m == 0 {
      assert BitOr(0, 1) == 1;
    } else if m == 2 {
      assert BitOr(2, 1) == 3;
    } else {
      assert BitOr(4, 1) == 5;
    }
  }

  /**
   * The derived key mode: rejected exactly when -pin has an unknown value;
   * otherwise its touch bit is set exactly when -touch is given, and its
   * PIN bits are those -pin selects (PIN once when -pin is absent).
   */
  lemma KeymodeBits(cl: CommandLine)
    ensures KeymodeOf(cl).None? <==> cl.pin.Some? && PinKeymode(cl.pin.value).None?
    ensures KeymodeOf(cl).Some? ==>
      var m := KeymodeOf(cl).value;
      && (m % 2 == 1 <==> cl.touch.Some?)
      && m - m % 2 == (if cl.pin.Some? then PinKeymode(cl.pin.value).value else KEYMODE_PIN_ONCE)
  {
    if KeymodeOf(cl).Some? && cl.touch.Some? {
      TouchBit(if cl.pin.Some? then PinKeymode(cl.pin.value).value else KEYMODE_PIN_ONCE);
    }
  }

  /** Without flags the key mode is PIN once and no touch, not the key store's own default. */
  lemma NoFlagsKeymode()
    ensures KeymodeOf(CommandLine(None, None, None, None)) == Some(KEYMODE_PIN_ONCE)
    ensures KEYMODE_PIN_ONCE != DefaultKeymode
  {
    assert DefaultKeymode == 3 by {
      assert BitOr(1, 2) == 3;
    }
  }

  /** Every key mode parseFlags derives is one SetYubikeyKeyMode accepts, so the worker's call never fails. */
  lemma DerivedKeymodeAccepted(cl: CommandLine)
    requires KeymodeOf(cl).Some?
    ensures ValidKeyMode(KeymodeOf(cl).value)
  {
    KeymodeBits(cl);
  }

  /** The package variables of the daemon that parseFlags and setLogLevel set. */
  class Settings {
    var logLevel: string
    var keymodePin: string
    var keymodeTouch: bool
    var stopSignal: bool
    var flagset: set<string>   // the names of the flags given
    var keymode: int
    var level: Option<Level>   // the logger's level once set
    var exited: bool           // invalidFlag ended the process

    constructor ()
      ensures flagset == {} && level == None && !exited
    {
      logLevel, keymodePin, keymodeTouch, stopSignal := "", "", false, false;
      flagset := {};
      keymode := 0;
      level := None;
      exited := false;
    }

    /** setLogLevel: selects the level named by logLevel, or rejects the flag and exits. */
    method SetLogLevel()
      modifies this`level, this`exited
      ensures level == (if LevelNamed(logLevel).Some? then LevelNamed(logLevel) else old(level))
      ensures exited == (old(exited) || LevelNamed(logLevel).None?)
    {
      match LevelNamed(logLevel)
      case Some(l) => level := Some(l);
      case None => exited := true;
    }

    /**
     * parseFlags: records the given flags and their values (the defaults
     * for the others), derives the key mode and sets the log level. An
     * unknown -pin value ends the process before the log level is set.
     */
    method ParseFlags(cl: CommandLine)
      requires !exited
      modifies this
      ensures logLevel == cl.log.GetOr("error") && keymodePin == cl.pin.GetOr("once")
      ensures keymodeTouch == cl.touch.GetOr(true) && stopSignal == cl.stop.GetOr(false)
      ensures flagset == GivenFlags(cl)
      ensures exited <==> KeymodeOf(cl).None? || LevelNamed(cl.log.GetOr("error")).None?
      ensures !exited ==> keymode == KeymodeOf(cl).value && level == LevelNamed(cl.log.GetOr("error"))
    {
      logLevel := cl.log.GetOr("error");
      keymodePin := cl.pin.GetOr("once");
      keymodeTouch := cl.touch.GetOr(true);
      stopSignal := cl.stop.GetOr(false);
      flagset := GivenFlags(cl);
      GivenFlagsMembers(cl);
      if "pin" in flagset {
        if keymodePin == "none" {
          keymode := KEYMODE_NONE;
        } else if keymodePin == "once" {
          keymode := KEYMODE_PIN_ONCE;
        } else if keymodePin == "always" {
          keymode := KEYMODE_PIN_ALWAYS;
        } else {
          exited := true;  // invalidFlag: wrong value for pin
          return;
        }
      } else {
        keymode := KEYMODE_PIN_ONCE;
      }
      if "touch" in flagset {
        keymode := BitOr(keymode, KEYMODE_TOUCH);
      }
      SetLogLevel();
    }
  }
}
