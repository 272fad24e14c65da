/** Levels, events and the records the `logs` configuration is made of. */
module LogTypes {

  datatype Level = Unknown | Debug | Info | Warn | Error | Fatal

  function Severity(level: Level): nat {
    match level
    case Unknown => 0
    case Debug => 1
    case Info => 2
    case Warn => 3
    case Error => 4
    case Fatal => 5
  }

  function LevelToString(level: Level): string {
    match level
    case Unknown => "UNKNOW"
    case Debug => "DEBUG"
    case Info => "INFO"
    case Warn => "WARN"
    case Error => "ERROR"
    case Fatal => "FATAL"
  }

  function LevelFromString(s: string): Level {
    if s == "debug" || s == "DEBUG" then Debug
    else if s == "info" || s == "INFO" then Info
    else if s == "warn" || s == "WARN" then Warn
    else if s == "error" || s == "ERROR" then Error
    else if s == "fatal" || s == "FATAL" then Fatal
    else Unknown
  }

  /** The levels by name and by weight; only these texts are names. */
  lemma LevelNames(s: string)
    ensures Severity(Unknown) == 0 && Severity(Debug) == 1 && Severity(Info) == 2 && Severity(Warn) == 3
    ensures Severity(Error) == 4 && Severity(Fatal) == 5
    ensures LevelToString(Debug) == "DEBUG" && LevelToString(Info) == "INFO" && LevelToString(Warn) == "WARN"
    ensures LevelToString(Error) == "ERROR" && LevelToString(Fatal) == "FATAL" && LevelToString(Unknown) == "UNKNOW"
    ensures LevelFromString(s) == Debug <==> s == "debug" || s == "DEBUG"
    ensures LevelFromString(s) == Info <==> s == "info" || s == "INFO"
    ensures LevelFromString(s) == Warn <==> s == "warn" || s == "WARN"
    ensures LevelFromString(s) == Error <==> s == "error" || s == "ERROR"
    ensures LevelFromString(s) == Fatal <==> s == "fatal" || s == "FATAL"
  {
  }

  /** `typ` is 1 for a file appender and 2 for standard output. */
  datatype AppenderDefine = AppenderDefine(typ: int, level: Level, formatter: string, file: string)

  datatype LogDefine = LogDefine(name: string, level: Level, formatter: string,
                                 appenders: seq<AppenderDefine>)

  /** A set of definitions ordered by name holds at most one per name. */
  type Defines = m: map<string, LogDefine> | forall n :: n in m ==> m[n].name == n
    witness map[]

  datatype Event = Event(id: nat, level: Level, time: nat)
}
