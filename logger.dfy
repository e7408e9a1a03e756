/** The module-level logger of `src/logger.js`: a current level name that the
    setter changes, and four emitters that print a prefixed line only when the
    current level ranks at least as high as the message's severity. Printing
    is modelled as the line the emitter returns. */
module Logging {
  import opened Base

  datatype Severity = Error | Warn | Info | Debug

  /** `logLevels`: error 0, warn 1, info 2, debug 3. */
  function Rank(s: Severity): nat
  {
    match s
    case Error => 0
    case Warn => 1
    case Info => 2
    case Debug => 3
  }

  /** What `logLevels[name]` reads: one of the table's own ranks, a member
      every object inherits from `Object.prototype` (a function, or the
      prototype itself for `__proto__`), or `undefined`. */
  datatype LevelEntry = Level(severity: Severity) | Inherited | Missing

  /** The members of `Object.prototype`. */
  const PrototypeMembers: set<string> :=
    {"constructor", "__defineGetter__", "__defineSetter__", "hasOwnProperty", "__lookupGetter__",
     "__lookupSetter__", "isPrototypeOf", "propertyIsEnumerable", "toString", "valueOf",
     "__proto__", "toLocaleString"}

  /** `logLevels[name]`. */
  function LookupLevel(name: string): (r: LevelEntry)
    ensures r.Level? <==> name in {"error", "warn", "info", "debug"}
    ensures r.Inherited? <==> name in PrototypeMembers
    ensures r.Level? ==> r == Level(if name == "error" then Error else if name == "warn" then Warn
                                    else if name == "info" then Info else Debug)
  {
    if name == "error" then Level(Error)
    else if name == "warn" then Level(Warn)
    else if name == "info" then Level(Info)
    else if name == "debug" then Level(Debug)
    else if name in PrototypeMembers then Inherited
    else Missing
  }

  function Prefix(s: Severity): string
  {
    match s
    case Error => "ERROR: "
    case Warn => "WARNING: "
    case Info => "INFO: "
    case Debug => "DEBUG: "
  }

  class Logger {
    /** `currentLevel`, which the `level` getter returns. */
    var level: string

    /** The setter only ever stores a name `logLevels` has. */
    predicate Valid()
      reads this
    {
      !LookupLevel(level).Missing?
    }

    /** The level the module starts with. */
    constructor()
      ensures level == "info" && Valid()
    {
      level := "info";
    }

    /** The `level` setter: a name `logLevels` has, its own or inherited, is
        stored; anything else resets the level to `info`. */
    method SetLevel(newLevel: string)
      modifies this
      ensures level == (if !LookupLevel(newLevel).Missing? then newLevel else "info")
      ensures Valid()
    {
      if !LookupLevel(newLevel).Missing? {
        level := newLevel;
      } else {
        level := "info";
      }
    }

    /** `logLevels[currentLevel] >= logLevels[s]`: an inherited member
        compares as `NaN`, so it never passes. */
    predicate Emits(s: Severity)
      reads this
    {
      match LookupLevel(level)
      case Level(l) => Rank(l) >= Rank(s)
      case _ => false
    }

    /** The emitter of severity `s`: the line it prints, if any. */
    method Log(s: Severity, message: string) returns (line: Option<string>)
      ensures line.Some? <==> LookupLevel(level).Level? && Rank(LookupLevel(level).severity) >= Rank(s)
      ensures line.Some? ==> line.value == Prefix(s) + message
      ensures LookupLevel(level).Level? && s == Error ==> line == Some("ERROR: " + message)
      ensures LookupLevel(level).Inherited? ==> line == None
    {
      if Emits(s) {
        line := Some(Prefix(s) + message);
      } else {
        line := None;
      }
    }
  }

  /** A level that lets a message through lets every more severe message
      through. */
  lemma EmitsMonotone(logger: Logger, s: Severity, t: Severity)
    requires logger.Emits(s) && Rank(t) <= Rank(s)
    ensures logger.Emits(t)
  {
  }

  /** Error messages are printed whatever level of the table is set, and
      debug messages only at the `debug` level. */
  lemma EmitsExtremes(logger: Logger)
    requires LookupLevel(logger.level).Level?
    ensures logger.Emits(Error)
    ensures logger.Emits(Debug) <==> logger.level == "debug"
  {
  }
}
