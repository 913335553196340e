/**
  Log levels: their severity order, the threshold test that decides whether a message is
  emitted, their labels, and the case-insensitive parsing of a level name.
 */
module Levels {
  import opened Optional

  /** The logger's levels. NONE is a sentinel: a threshold meaning "suppress everything". */
  datatype LogLevel = DEBUG | INFO | WARN | ERROR | NONE

  /** The levels a message can be logged at: every level except the NONE sentinel. */
  type MessageLevel = l: LogLevel | l != NONE witness DEBUG

  /** Severity rank, least to most severe; NONE ranks above every message level. */
  function Severity(l: LogLevel): nat
  {
    match l
    case DEBUG => 0
    case INFO => 1
    case WARN => 2
    case ERROR => 3
    case NONE => 4
  }

  /**
    The numeric value of the enumeration member. NONE is 1; the enumeration lists the
    levels from NONE down to DEBUG, so the other members follow it.
   */
  function EnumValue(l: LogLevel): nat
  {
    match l
    case NONE => 1
    case ERROR => 2
    case WARN => 3
    case INFO => 4
    case DEBUG => 5
  }

  /** A message at `level` is emitted under `threshold` when it is at least as severe. */
  predicate Passes(level: MessageLevel, threshold: LogLevel)
  {
    Severity(level) >= Severity(threshold)
  }

  /** The threshold test read on the enumeration's numeric values: a smaller value is more severe. */
  lemma PassesMatchesEnumValue(level: MessageLevel, threshold: LogLevel)
    ensures Passes(level, threshold) <==> EnumValue(level) <= EnumValue(threshold)
  {
  }

  /** NONE suppresses every message, ERROR included. */
  lemma NoneSuppressesAll(level: MessageLevel)
    ensures !Passes(level, NONE)
  {
  }

  /** Every message passes the DEBUG threshold, and a message always passes its own level. */
  lemma DebugPassesAll(level: MessageLevel)
    ensures Passes(level, DEBUG)
    ensures Passes(level, level)
  {
  }

  /** The threshold test is monotone: a message that passes a threshold passes every lower one. */
  lemma PassesMonotone(level: MessageLevel, t1: LogLevel, t2: LogLevel)
    requires Severity(t2) <= Severity(t1)
    requires Passes(level, t1)
    ensures Passes(level, t2)
  {
  }

  /** The suppressions the test suite asserts, and the emissions it expects. */
  lemma SuppressionTable()
    ensures !Passes(DEBUG, INFO) && !Passes(DEBUG, WARN)
    ensures !Passes(INFO, WARN)
    ensures !Passes(WARN, ERROR)
    ensures !Passes(DEBUG, NONE) && !Passes(INFO, NONE) && !Passes(WARN, NONE) && !Passes(ERROR, NONE)
    ensures Passes(DEBUG, DEBUG) && Passes(INFO, DEBUG) && Passes(WARN, DEBUG) && Passes(ERROR, DEBUG)
  {
  }

  /** The canonical name of a level; for a message level it is also its label. */
  function Name(l: LogLevel): string
  {
    match l
    case DEBUG => "DEBUG"
    case INFO => "INFO"
    case WARN => "WARN"
    case ERROR => "ERROR"
    case NONE => "NONE"
  }

  /** The label a message level shows in output. */
  function Label(l: MessageLevel): string
  {
    Name(l)
  }

  /** ASCII upper-casing of one character. */
  function UpperChar(c: char): char
  {
    if 'a' <= c <= 'z' then (c as int - 32) as char else c
  }

  /** ASCII upper-casing of a string, character by character. */
  function Upper(s: string): (u: string)
    ensures |u| == |s|
    ensures forall i :: 0 <= i < |s| ==> u[i] == UpperChar(s[i])
  {
    if s == [] then [] else [UpperChar(s[0])] + Upper(s[1..])
  }

  /** Upper-casing twice changes nothing more. */
  lemma UpperIdempotent(s: string)
    ensures Upper(Upper(s)) == Upper(s)
  {
    var u := Upper(s);
    assert forall i :: 0 <= i < |u| ==> Upper(u)[i] == u[i];
  }

  /** Parsing a level name, ignoring case; an unrecognised name yields nothing. */
  function ParseLevel(s: string): (r: Option<LogLevel>)
    ensures forall l :: r == Some(l) <==> Upper(s) == Name(l)
  {
    var u := Upper(s);
    if u == "DEBUG" then Some(DEBUG)
    else if u == "INFO" then Some(INFO)
    else if u == "WARN" then Some(WARN)
    else if u == "ERROR" then Some(ERROR)
    else if u == "NONE" then Some(NONE)
    else None
  }

  /** Every level's name parses back to the level. */
  lemma ParseName(l: LogLevel)
    ensures ParseLevel(Name(l)) == Some(l)
  {
  }

  /** Parsing ignores case: a string and its upper-cased form parse alike. */
  lemma ParseIgnoresCase(s: string)
    ensures ParseLevel(s) == ParseLevel(Upper(s))
  {
    UpperIdempotent(s);
  }

  /** The environment value "NONE" parses to NONE, whose enumeration value is 1. */
  lemma NoneParsesToOne()
    ensures ParseLevel("NONE") == Some(NONE)
    ensures EnumValue(ParseLevel("NONE").value) == 1
  {
    ParseName(NONE);
  }
}
