/**
 * The six severity levels of the logger, their printed names, and the
 * name-to-ordinal table that `write` consults before emitting a line.
 */
module Levels {

  datatype Level = Trace | Debug | Info | Warn | Error | Fatal

  /** The levels in declaration order, least severe first. */
  const AllLevels: seq<Level> := [Trace, Debug, Info, Warn, Error, Fatal]

  /** The ordinal each level receives from Go's `iota`. */
  function Ordinal(l: Level): int
  {
    match l
    case Trace => 0
    case Debug => 1
    case Info => 2
    case Warn => 3
    case Error => 4
    case Fatal => 5
  }

  /** The upper-case name printed in the `<LEVEL>` slot of a line. */
  function Name(l: Level): string
  {
    match l
    case Trace => "TRACE"
    case Debug => "DEBUG"
    case Info => "INFO"
    case Warn => "WARN"
    case Error => "ERROR"
    case Fatal => "FATAL"
  }

  /** The package-level table built at start-up, from level name to ordinal. */
  const NameTable: map<string, int> :=
    map["TRACE" := 0, "DEBUG" := 1, "INFO" := 2, "WARN" := 3, "ERROR" := 4, "FATAL" := 5]

  /** A Go map read `m[name]`: the stored ordinal, or the zero value for an absent name. */
  function Lookup(name: string): (r: int)
    ensures Ordinal(Trace) <= r <= Ordinal(Fatal)
  {
    if name in NameTable then NameTable[name] else 0
  }

  /** The table holds exactly the six level names, each mapped to that level's ordinal. */
  lemma NameTableMatchesLevels()
    ensures NameTable.Keys == set l | l in AllLevels :: Name(l)
    ensures forall l :: Lookup(Name(l)) == Ordinal(l)
  {
    var names := set l | l in AllLevels :: Name(l);
    assert Name(Trace) in names && Name(Debug) in names && Name(Info) in names;
    assert Name(Warn) in names && Name(Error) in names && Name(Fatal) in names;
  }

  /** Declaration order gives the ordinals 0..5, so they are strictly increasing. */
  lemma OrdinalsIncrease()
    ensures |AllLevels| == 6
    ensures forall i :: 0 <= i < |AllLevels| ==> Ordinal(AllLevels[i]) == i
    ensures forall i, j :: 0 <= i < j < |AllLevels| ==> Ordinal(AllLevels[i]) < Ordinal(AllLevels[j])
    ensures forall l :: l in AllLevels
  {
    forall l ensures l in AllLevels {
      match l
      case Trace => assert AllLevels[0] == l;
      case Debug => assert AllLevels[1] == l;
      case Info => assert AllLevels[2] == l;
      case Warn => assert AllLevels[3] == l;
      case Error => assert AllLevels[4] == l;
      case Fatal => assert AllLevels[5] == l;
    }
  }

  /** Distinct levels have distinct names and distinct ordinals. */
  lemma LevelsDistinct(a: Level, b: Level)
    requires a != b
    ensures Name(a) != Name(b)
    ensures Ordinal(a) != Ordinal(b)
  {
  }

  /**
   * Every name the table knows belongs to a level; so a name that is no
   * level's name is read as 0, the ordinal of Trace.
   */
  lemma LookupOnlyKnowsLevelNames(name: string)
    ensures name in NameTable ==> exists l :: Name(l) == name && Ordinal(l) == Lookup(name)
    ensures (forall l :: Name(l) != name) ==> Lookup(name) == Ordinal(Trace)
  {
    if name == "TRACE" { assert Name(Trace) == name; }
    else if name == "DEBUG" { assert Name(Debug) == name; }
    else if name == "INFO" { assert Name(Info) == name; }
    else if name == "WARN" { assert Name(Warn) == name; }
    else if name == "ERROR" { assert Name(Error) == name; }
    else if name == "FATAL" { assert Name(Fatal) == name; }
  }
}
