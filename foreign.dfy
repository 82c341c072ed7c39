/** Helpers that the configuration parser calls but whose sources are not part of
    this model (Tools, Validator, UnitTool, Ephemeris, Tokenizer, the C library),
    the status values the parsers return, and the string normalisation they apply. */
module Foreign {

  datatype Option<T> = None | Some(value: T)
  {
    function GetOr(default: T): T
    {
      match this
      case Some(v) => v
      case None => default
    }
  }

  /** Why a parser step returned 1. Each kind stands for one error message of the
      source; the kinds marked UB stand for inputs on which the source dereferences
      a null pointer or reads an empty list, which the model reports instead. */
  datatype ErrorKind =
    | InvalidValue            // "Invalid value: '...'", "Invalid value", "Invalid value for 'factor'"
    | InvalidNumber           // "Invalid number: '...'"
    | OutOfRange              // "Value out of range"
    | UnknownIntegrator
    | UnrecognizedDimension
    | InvalidTimeline
    | UnrecognizedKey
    | InvalidKeyValuePair
    | MissingIntegrator
    | MissingTimeline
    | UnknownBodyType
    | UnknownMpcOrbitType
    | UnknownMigrationType
    | UnknownLn
    | RadiusAndDensity
    | InvalidComponentCount
    | RatioSumNot100
    | UndefinedEpochFormat
    | BothPhaseAndOrbitalElement
    | NeitherPhaseNorOrbitalElement
    | MissingBodyType
    | TestParticleWithCharacteristicsAndMigration
    | NoIntegrator            // UB: accuracy given before any integrator object exists
    | NullCharacteristics     // UB: density rule or components read a missing Characteristics
    | NoBodyGroup             // UB: a group key before any 'description'
    | NoBody                  // UB: final check on an empty list

  /** The 0 / 1 return value of the parser functions, with the reason for a 1. */
  datatype Status = Ok | Fail(error: ErrorKind)

  /** A value built by a parser step, or the reason the step returned 1. */
  datatype Result<T> = Success(value: T) | Failure(error: ErrorKind)

  /** The helper functions whose code is not shown, as uninterpreted functions. */
  datatype Helpers = Helpers(
    trim: string -> string,                   // Tools::Trim
    isNumber: string -> bool,                 // Tools::IsNumber
    atof: string -> real,                     // atof: a double, read as a real
    atoi: string -> int,                      // atoi
    stringToBool: string -> Option<bool>,     // Tools::StringToBool: None when it returns non-zero
    pow10: real -> real,                      // pow(10, x)
    timeUnitKnown: string -> bool,            // UnitTool::TimeToDay(v, dummy) != 1
    timeToDay: (string, real) -> real,        // UnitTool::TimeToDay(v, x): the rescaled x
    distanceUnitKnown: string -> bool,        // UnitTool::DistanceToAu(v, dummy) != 1
    distanceToAu: (string, real) -> real,     // UnitTool::DistanceToAu(v, x): the rescaled x
    epochFormatKnown: string -> bool,         // Ephemeris::GetFormat(v) != UndefinedFormat
    tokenize: (string, string) -> seq<string> // Tokenizer::set(s, d): the tokens next() yields before ""
  )

  /** Tokenizer::next(): the k-th token, and "" once the tokens are used up. */
  function Token(tokens: seq<string>, k: nat): string
  {
    if k < |tokens| then tokens[k] else ""
  }

  // Validator helpers, with the meaning their names give them.
  predicate ElementOfAndContainsEndPoints(a: real, b: real, x: real) { a <= x <= b }
  predicate ElementOfAndContainsLower(a: real, b: real, x: real) { a <= x < b }
  predicate GreaterThan(a: real, x: real) { x > a }
  predicate GreaterThanOrEqualTo(a: real, x: real) { x >= a }

  function Abs(x: real): real { if x < 0.0 then -x else x }

  /** ::tolower in the C locale. */
  function LowerChar(c: char): char
  {
    if 'A' <= c <= 'Z' then (c as int + 32) as char else c
  }

  function ToLower(s: string): (r: string)
    ensures |r| == |s|
    ensures forall i :: 0 <= i < |s| ==> r[i] == LowerChar(s[i])
    ensures forall i :: 0 <= i < |s| ==> !('A' <= r[i] <= 'Z')
  {
    seq(|s|, i requires 0 <= i < |s| => LowerChar(s[i]))
  }

  /** What SetSettings, SetBodyGroupList and SetNebula do to a key and a value
      before they compare it: Tools::Trim, then std::transform with ::tolower. */
  function Normalize(s: string, h: Helpers): string
  {
    ToLower(h.trim(s))
  }
}
