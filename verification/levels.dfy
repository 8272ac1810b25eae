/**
 * The severity levels of the logging engine (logrus), their names, and the
 * level parser the logger configuration relies on.
 */
module Levels {
  import opened Options

  /** Levels in the engine's ordinal order: Panic is 0 and the most severe, Trace is 6. */
  datatype Level = Panic | Fatal | Error | Warn | Info | Debug | Trace

  /** The engine's numeric value of a level. */
  function Ord(l: Level): (n: nat)
    ensures n <= 6
    ensures n == 0 <==> l == Panic
  {
    match l
    case Panic => 0
    case Fatal => 1
    case Error => 2
    case Warn => 3
    case Info => 4
    case Debug => 5
    case Trace => 6
  }

  /** The level with numeric value `n`. */
  function FromOrd(n: nat): (l: Level)
    requires n <= 6
    ensures Ord(l) == n
  {
    if n == 0 then Panic
    else if n == 1 then Fatal
    else if n == 2 then Error
    else if n == 3 then Warn
    else if n == 4 then Info
    else if n == 5 then Debug
    else Trace
  }

  /** Every level, most severe first (the engine's `AllLevels`). */
  const AllLevels: seq<Level> := [Panic, Fatal, Error, Warn, Info, Debug, Trace]

  /** `AllLevels` lists every level. */
  lemma EveryLevelListed()
    ensures forall l: Level :: l in AllLevels
  {
    forall l: Level
      ensures l in AllLevels
    {
      assert AllLevels[Ord(l)] == l by {
        match l
        case Panic =>
        case Fatal =>
        case Error =>
        case Warn =>
        case Info =>
        case Debug =>
        case Trace =>
      }
    }
  }

  /** The engine's textual name of a level (`Level.String`). */
  function Name(l: Level): string
  {
    match l
    case Panic => "panic"
    case Fatal => "fatal"
    case Error => "error"
    case Warn => "warning"
    case Info => "info"
    case Debug => "debug"
    case Trace => "trace"
  }

  /**
   * Lower-casing of one character, as Go's `unicode.ToLower` does it for
   * every character whose lower case is ASCII: `A`-`Z`, the dotted capital
   * I (U+0130) and the Kelvin sign (U+212A). Every other character is kept:
   * Go maps those to non-ASCII characters or to themselves, and since every
   * level name is ASCII, that difference never changes what a string parses to.
   */
  function LowerChar(c: char): char
  {
    if 'A' <= c <= 'Z' then (c as int + 32) as char
    else if c == '\U{0130}' then 'i'
    else if c == '\U{212A}' then 'k'
    else c
  }

  /** Go's `strings.ToLower`, character by character (see `LowerChar`). */
  function Lower(s: string): (r: string)
    ensures |r| == |s|
    ensures forall i :: 0 <= i < |s| ==> r[i] == LowerChar(s[i])
  {
    seq(|s|, i requires 0 <= i < |s| => LowerChar(s[i]))
  }

  /** Lower-casing twice is lower-casing once. */
  lemma LowerIdempotent(s: string)
    ensures Lower(Lower(s)) == Lower(s)
  {
    assert forall i :: 0 <= i < |s| ==> Lower(Lower(s))[i] == Lower(s)[i];
  }

  /**
   * The engine's `ParseLevel`. ASSUMPTION: the library is not part of this
   * model; this table is its documented behaviour: the input is lower-cased,
   * then one of the eight names below is accepted ("warn" and "warning" both
   * give Warn) and anything else is an error.
   */
  function ParseLevel(s: string): (r: Option<Level>)
  {
    var t := Lower(s);
    if t == "panic" then Some(Panic)
    else if t == "fatal" then Some(Fatal)
    else if t == "error" then Some(Error)
    else if t == "warn" || t == "warning" then Some(Warn)
    else if t == "info" then Some(Info)
    else if t == "debug" then Some(Debug)
    else if t == "trace" then Some(Trace)
    else None
  }

  /** Every level's own name parses back to it. */
  lemma ParseName(l: Level)
    ensures ParseLevel(Name(l)) == Some(l)
  {
    var n := Name(l);
    assert Lower(n) == n by {
      assert forall i :: 0 <= i < |n| ==> LowerChar(n[i]) == n[i];
    }
  }

  /** Parsing ignores case: a string parses as its lower-cased form does. */
  lemma ParseIgnoresCase(s: string)
    ensures ParseLevel(s) == ParseLevel(Lower(s))
  {
    LowerIdempotent(s);
  }

  /**
   * `logrusLevelByString`: the parsed level when the string parses, and
   * exactly the supplied default otherwise; it never fails.
   */
  function LevelByString(level: string, default: Level): (r: Level)
    ensures ParseLevel(level).Some? ==> r == ParseLevel(level).value
    ensures ParseLevel(level).None? ==> r == default
  {
    match ParseLevel(level)
    case Some(l) => l
    case None => default
  }

  /** A level's name resolves to that level whatever the default. */
  lemma LevelByStringName(l: Level, default: Level)
    ensures LevelByString(Name(l), default) == l
  {
    ParseName(l);
  }
}
