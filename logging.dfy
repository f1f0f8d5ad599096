/**
 * Level selection and level gating of src/logging/logger.go.  Only whether
 * a message gets through is modelled, not how it is formatted.
 */
module Logging {

  /** The levels in `iota` order. */
  datatype LogLevel = LevelDebug | LevelInfo | LevelWarn | LevelError | LevelFatal

  /** The integer value Go gives each level. */
  function Rank(l: LogLevel): nat {
    match l
    case LevelDebug => 0
    case LevelInfo => 1
    case LevelWarn => 2
    case LevelError => 3
    case LevelFatal => 4
  }

  /** `a >= b` on Go's `LogLevel`. */
  predicate AtLeast(a: LogLevel, b: LogLevel) {
    Rank(a) >= Rank(b)
  }

  /** The levels form a chain: `AtLeast` is a total order. */
  lemma LevelsTotallyOrdered(a: LogLevel, b: LogLevel, c: LogLevel)
    ensures AtLeast(a, a)
    ensures AtLeast(a, b) && AtLeast(b, a) ==> a == b
    ensures AtLeast(a, b) && AtLeast(b, c) ==> AtLeast(a, c)
    ensures AtLeast(a, b) || AtLeast(b, a)
    ensures AtLeast(LevelFatal, a) && AtLeast(a, LevelDebug)
  {
  }

  /**
   * One character as `strings.ToLower` maps it, wherever the result is an
   * ASCII character: `A`..`Z`, and the two non-ASCII letters whose simple
   * lower-case mapping is ASCII (U+0130 to `i`, the Kelvin sign U+212A to
   * `k`).  Every other character is kept; Go maps some of them to other
   * non-ASCII characters, which no keyword comparison below can tell apart.
   */
  function LowerChar(c: char): (r: char)
    ensures !('A' <= r <= 'Z')
  {
    if 'A' <= c <= 'Z' then (c as int + 32) as char
    else if c == '\U{0130}' then 'i'
    else if c == '\U{212A}' then 'k'
    else c
  }

  /** `strings.ToLower`, as far as `LowerChar` models it. */
  function Lower(s: string): (r: string)
    ensures |r| == |s|
    ensures forall i :: 0 <= i < |s| ==> r[i] == LowerChar(s[i])
  {
    if s == [] then [] else [LowerChar(s[0])] + Lower(s[1..])
  }

  /** Lowering is idempotent. */
  lemma LowerIdempotent(s: string)
    ensures Lower(Lower(s)) == Lower(s)
  {
    var t := Lower(s);
    assert forall i :: 0 <= i < |t| ==> LowerChar(t[i]) == t[i];
  }

  /**
   * The level `SetLevel` selects for a string: one whose spelling the
   * lowered string is, or Info when it is none.
   */
  function ParseLevel(level: string): (r: LogLevel)
    ensures Lower(level) in Spellings(r) || (r == LevelInfo && Lower(level) !in AllSpellings)
  {
    var l := Lower(level);
    if l == "debug" then LevelDebug
    else if l == "info" then LevelInfo
    else if l == "warn" || l == "warning" then LevelWarn
    else if l == "error" then LevelError
    else if l == "fatal" then LevelFatal
    else LevelInfo
  }

  /** The lower-case spellings `SetLevel` recognises for each level. */
  function Spellings(l: LogLevel): set<string> {
    match l
    case LevelDebug => {"debug"}
    case LevelInfo => {"info"}
    case LevelWarn => {"warn", "warning"}
    case LevelError => {"error"}
    case LevelFatal => {"fatal"}
  }

  /** Every spelling `SetLevel` recognises. */
  const AllSpellings: set<string> := {"debug", "info", "warn", "warning", "error", "fatal"}

  /**
   * `SetLevel` selects `l` exactly when the lowered string is one of `l`'s
   * spellings, or, for `LevelInfo` only, when it is no spelling at all.
   */
  lemma ParseLevelMatchesSpellings(level: string, l: LogLevel)
    ensures ParseLevel(level) == l <==>
      Lower(level) in Spellings(l) || (l == LevelInfo && Lower(level) !in AllSpellings)
  {
  }

  /**
   * Any string that lower-cases, letter by letter, to a spelling of `l`
   * selects `l`: "DEBUG", "Debug" and "debug" all give `LevelDebug`.
   */
  lemma ParseLevelAnyCasing(s: string, w: string, l: LogLevel)
    requires w in Spellings(l)
    requires |s| == |w| && forall i :: 0 <= i < |s| ==> LowerChar(s[i]) == w[i]
    ensures ParseLevel(s) == l
  {
    assert Lower(s) == w;
  }

  /** Upper, lower or mixed case makes no difference to `SetLevel`. */
  lemma ParseLevelIgnoresCase(s: string, t: string)
    requires Lower(s) == Lower(t)
    ensures ParseLevel(s) == ParseLevel(t)
    ensures ParseLevel(Lower(s)) == ParseLevel(s)
  {
    LowerIdempotent(s);
  }

  /** Spellings the agent meets: a command-line flag, and the config default "Info". */
  lemma ParseLevelExamples()
    ensures ParseLevel("DEBUG") == ParseLevel("Debug") == LevelDebug
    ensures ParseLevel("WARNING") == LevelWarn
    ensures ParseLevel("Info") == LevelInfo
  {
    ParseLevelAnyCasing("DEBUG", "debug", LevelDebug);
    ParseLevelAnyCasing("Debug", "debug", LevelDebug);
    ParseLevelAnyCasing("WARNING", "warning", LevelWarn);
    ParseLevelAnyCasing("Info", "info", LevelInfo);
  }

  /** The empty string and unknown names fall back to Info. */
  lemma ParseLevelFallback()
    ensures ParseLevel("") == LevelInfo
    ensures ParseLevel("verbose") == LevelInfo
  {
    assert Lower("") == "";
    assert Lower("verbose")[0] == 'v';
  }

  /** `shouldLog`: a message passes when its level is at least the current one. */
  predicate ShouldLog(current: LogLevel, level: LogLevel): (r: bool)
    ensures r <==> Rank(level) >= Rank(current)
    ensures level == current ==> r
    ensures level == LevelFatal ==> r
  {
    AtLeast(level, current)
  }

  /**
   * The gate is upward closed, passes the current level itself, and passes
   * nothing below it.
   */
  lemma ShouldLogThreshold(current: LogLevel, a: LogLevel, b: LogLevel)
    ensures ShouldLog(current, current) && ShouldLog(current, LevelFatal)
    ensures ShouldLog(current, a) && AtLeast(b, a) ==> ShouldLog(current, b)
    ensures !ShouldLog(current, a) <==> Rank(a) < Rank(current)
  {
  }

  /** A message that reached the output, with its level tag. */
  datatype Entry = Entry(level: LogLevel, msg: string)

  /**
   * The package state: `currentLevel`, whether `Init` has created the
   * `logger`, what reached it, and whether `Fatal` has exited the process.
   * Nothing runs after the exit, so every method requires `!exited`.
   */
  class Logger {
    var currentLevel: LogLevel
    var initialized: bool
    var output: seq<Entry>
    var exited: bool

    /** The package before `Init`: level Info and a nil `logger`. */
    constructor ()
      ensures currentLevel == LevelInfo && !initialized && output == [] && !exited
    {
      currentLevel, initialized, output, exited := LevelInfo, false, [], false;
    }

    /** `Init(logLevelOverride...)`: only a present, non-empty override changes the level. */
    method Init(overrides: seq<string>)
      requires !exited
      modifies this`initialized, this`currentLevel
      ensures initialized
      ensures currentLevel ==
        if |overrides| > 0 && overrides[0] != "" then ParseLevel(overrides[0]) else old(currentLevel)
    {
      initialized := true;
      if |overrides| > 0 && overrides[0] != "" {
        SetLevel(overrides[0]);
      }
    }

    method SetLevel(level: string)
      requires !exited
      modifies this`currentLevel
      ensures currentLevel == ParseLevel(level)
    {
      var l := Lower(level);
      if l == "debug" {
        currentLevel := LevelDebug;
      } else if l == "info" {
        currentLevel := LevelInfo;
      } else if l == "warn" || l == "warning" {
        currentLevel := LevelWarn;
      } else if l == "error" {
        currentLevel := LevelError;
      } else if l == "fatal" {
        currentLevel := LevelFatal;
      } else {
        currentLevel := LevelInfo;
      }
    }

    /** The gated write shared by `Debug`, `Info`, `Warn` and `Error`. */
    method Gated(level: LogLevel, msg: string) returns (emitted: bool)
      requires !exited
      requires ShouldLog(currentLevel, level) ==> initialized
      modifies this`output
      ensures emitted == ShouldLog(currentLevel, level)
      ensures output == old(output) + if emitted then [Entry(level, msg)] else []
    {
      emitted := ShouldLog(currentLevel, level);
      if emitted {
        output := output + [Entry(level, msg)];
      }
    }

    method Debug(msg: string) returns (emitted: bool)
      requires !exited
      requires ShouldLog(currentLevel, LevelDebug) ==> initialized
      modifies this`output
      ensures emitted == ShouldLog(currentLevel, LevelDebug)
      ensures output == old(output) + if emitted then [Entry(LevelDebug, msg)] else []
    {
      emitted := Gated(LevelDebug, msg);
    }

    method Info(msg: string) returns (emitted: bool)
      requires !exited
      requires ShouldLog(currentLevel, LevelInfo) ==> initialized
      modifies this`output
      ensures emitted == ShouldLog(currentLevel, LevelInfo)
      ensures output == old(output) + if emitted then [Entry(LevelInfo, msg)] else []
    {
      emitted := Gated(LevelInfo, msg);
    }

    method Warn(msg: string) returns (emitted: bool)
      requires !exited
      requires ShouldLog(currentLevel, LevelWarn) ==> initialized
      modifies this`output
      ensures emitted == ShouldLog(currentLevel, LevelWarn)
      ensures output == old(output) + if emitted then [Entry(LevelWarn, msg)] else []
    {
      emitted := Gated(LevelWarn, msg);
    }

    method Error(msg: string) returns (emitted: bool)
      requires !exited
      requires ShouldLog(currentLevel, LevelError) ==> initialized
      modifies this`output
      ensures emitted == ShouldLog(currentLevel, LevelError)
      ensures output == old(output) + if emitted then [Entry(LevelError, msg)] else []
    {
      emitted := Gated(LevelError, msg);
    }

    /** `Fatal` writes without consulting the level, then exits. */
    method Fatal(msg: string)
      requires !exited && initialized
      modifies this`output, this`exited
      ensures output == old(output) + [Entry(LevelFatal, msg)]
      ensures exited
    {
      output := output + [Entry(LevelFatal, msg)];
      exited := true;
    }
  }

  /**
   * Until `SetLevel` is called, and after an `Init` with no override or an
   * empty one (the agent passes its `-log-level` flag, empty by default),
   * the level is Info: Debug is suppressed and Info, Warn and Error reach
   * the output, in order.
   */
  method DefaultLevelGating(overrides: seq<string>, d: string, i: string, w: string, e: string)
    returns (debug: bool, info: bool, warn: bool, error: bool, lines: seq<Entry>)
    requires |overrides| == 0 || overrides[0] == ""
    ensures !debug && info && warn && error
    ensures lines == [Entry(LevelInfo, i), Entry(LevelWarn, w), Entry(LevelError, e)]
  {
    var log := new Logger();
    log.Init(overrides);
    debug := log.Debug(d);
    info := log.Info(i);
    warn := log.Warn(w);
    error := log.Error(e);
    lines := log.output;
  }
}
