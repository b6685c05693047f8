/**
  The severity levels of the honeypot's Logger and the names it prints for them.
  Only the level-to-name mapping is modelled; timestamps, console and file
  output are outside the model. A log call is recorded as an `Entry`.
 */
module Logger {
  import opened Wrappers

  /** The five enumerators of `LogLevel`, in declaration order. */
  datatype LogLevel = DEBUG | INFO | WARNING | ERROR | CRITICAL

  /** One call of `Logger::log`: the level and the message text. */
  datatype Entry = Entry(level: LogLevel, message: string)

  /** Number of enumerators of `LogLevel`. */
  const LevelCount: nat := 5

  /** The name printed for a value outside the enumeration. */
  const Unknown: string := "UNKNOWN"

  /** The int value the compiler gives each enumerator: 0 for DEBUG up to 4 for CRITICAL. */
  function Code(level: LogLevel): (c: int)
    ensures 0 <= c < LevelCount
  {
    match level
    case DEBUG => 0
    case INFO => 1
    case WARNING => 2
    case ERROR => 3
    case CRITICAL => 4
  }

  /**
    The switch of `log_level_to_string`, taken over the int value it dispatches on,
    so that its `default` branch is part of the model.
   */
  function NameOfCode(c: int): (name: string)
    ensures name == Unknown <==> !(0 <= c < LevelCount)
    ensures |name| > 0
  {
    if c == 0 then "DEBUG"
    else if c == 1 then "INFO"
    else if c == 2 then "WARNING"
    else if c == 3 then "ERROR"
    else if c == 4 then "CRITICAL"
    else Unknown
  }

  /** `log_level_to_string` on a genuine enumerator: never the default answer. */
  function LevelToString(level: LogLevel): (name: string)
    ensures name != Unknown
    ensures forall i :: 0 <= i < |name| ==> 'A' <= name[i] <= 'Z'
  {
    NameOfCode(Code(level))
  }

  /** The level whose printed name is `name`, if there is one: the inverse of `LevelToString`. */
  function LevelNamed(name: string): (r: Option<LogLevel>)
    ensures name == Unknown ==> r == None
  {
    match name
    case "DEBUG" => Some(DEBUG)
    case "INFO" => Some(INFO)
    case "WARNING" => Some(WARNING)
    case "ERROR" => Some(ERROR)
    case "CRITICAL" => Some(CRITICAL)
    case _ => None
  }

  /** Reading a printed name back gives the level it was printed for, and only that level. */
  lemma LevelNameRoundTrip(level: LogLevel, name: string)
    ensures LevelNamed(name) == Some(level) <==> LevelToString(level) == name
  {
  }

  /** Distinct levels print as distinct names. */
  lemma LevelToStringInjective(a: LogLevel, b: LogLevel)
    ensures LevelToString(a) == LevelToString(b) ==> a == b
  {
  }
}
