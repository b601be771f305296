/**
 * The logging module's shared vocabulary: the four severities with their
 * ordinals, the structured record handed to every transport, what a
 * transport's `log` call can do, and the logger's configuration.
 */
module LogInterfaces {
  import opened Common

  /** Severities, totally ordered by their ordinals DEBUG=0 < INFO=1 < WARN=2 < ERROR=3. */
  datatype LogLevel = DEBUG | INFO | WARN | ERROR {

    /** The numeric value of the enum member. */
    function Ordinal(): (n: nat)
      ensures n <= 3
    {
      match this
      case DEBUG => 0
      case INFO => 1
      case WARN => 2
      case ERROR => 3
    }

    /** The reverse mapping `LogLevel[level]`: the member's name. */
    function Name(): (s: string)
      ensures 0 < |s| <= 5
    {
      match this
      case DEBUG => "DEBUG"
      case INFO => "INFO"
      case WARN => "WARN"
      case ERROR => "ERROR"
    }

    /** `this < other` on the numeric values, the comparison the logger filters with. */
    predicate Below(other: LogLevel) {
      Ordinal() < other.Ordinal()
    }
  }

  /** The member with a given numeric value, if there is one. */
  function LevelOf(n: int): (r: Option<LogLevel>)
    ensures r.Some? <==> 0 <= n <= 3
    ensures r.Some? ==> r.value.Ordinal() == n
  {
    if n == 0 then Some(DEBUG)
    else if n == 1 then Some(INFO)
    else if n == 2 then Some(WARN)
    else if n == 3 then Some(ERROR)
    else None
  }

  /** Distinct members have distinct ordinals and distinct names, and `Below` is a strict total order. */
  lemma {:induction false} LevelOrder(a: LogLevel, b: LogLevel, c: LogLevel)
    ensures a != b <==> a.Ordinal() != b.Ordinal()
    ensures a != b <==> a.Name() != b.Name()
    ensures !a.Below(a)
    ensures a.Below(b) && b.Below(c) ==> a.Below(c)
    ensures a != b ==> a.Below(b) || b.Below(a)
    ensures LevelOf(a.Ordinal()) == Some(a)
  {
  }

  /**
   * The free-form `meta` payload, as far as JSON can carry it: null,
   * booleans, integral numbers, strings, arrays and objects whose members
   * keep their insertion order.
   */
  datatype Json =
    | JNull
    | JBool(b: bool)
    | JNumber(n: int)
    | JString(s: string)
    | JArray(items: seq<Json>)
    | JObject(members: seq<Member>)

  datatype Member = Member(key: string, value: Json)

  /** JavaScript truthiness of an optional payload (`undefined` is `None`). */
  predicate MetaTruthy(meta: Option<Json>) {
    match meta
    case None => false
    case Some(JNull) => false
    case Some(JBool(b)) => b
    case Some(JNumber(n)) => n != 0
    case Some(JString(s)) => s != ""
    case Some(_) => true
  }

  /** JavaScript truthiness of an optional string. */
  predicate TextTruthy(s: Option<string>) {
    s.Some? && s.value != ""
  }

  /** The record every transport receives; `meta` and `stack` may be absent. */
  datatype LogData = LogData(
    timestamp: string,
    level: LogLevel,
    levelName: string,
    message: string,
    filePath: string,
    meta: Option<Json>,
    stack: Option<string>)

  /**
   * How one call of a transport's `log` ends: it returns synchronously
   * (`void`), it returns a promise that fulfils or one that rejects, or it
   * throws before returning.
   */
  datatype TransportOutcome = Returned | Fulfilled | Rejected | Threw

  /** A transport, seen from the logger: what its `log` does with each record. */
  datatype Transport = Transport(outcome: LogData -> TransportOutcome)

  /** A minimum severity and the ordered list of transports. */
  datatype LoggerOptions = LoggerOptions(level: LogLevel, transports: seq<Transport>)
}
