/** The severity levels and the gate that every logger of the library applies. */
module Levels {

  /** Declared in ordinal order: NONE is ordinal 0 and DEBUG the most verbose. */
  datatype Level = NONE | ERROR | WARN | INFO | DEBUG

  /** The four levels that own a writer slot, in ordinal order. */
  const WriterLevels: seq<Level> := [ERROR, WARN, INFO, DEBUG]

  function Ordinal(l: Level): (n: nat)
    ensures n < 5
    ensures n == 0 <==> l == NONE
  {
    match l
    case NONE => 0
    case ERROR => 1
    case WARN => 2
    case INFO => 3
    case DEBUG => 4
  }

  /** `Enum.name()`: the text the simple pipeline prints for a level. */
  function Name(l: Level): (r: string)
    ensures 4 <= |r| <= 5
    ensures |r| == 5 <==> l == ERROR || l == DEBUG
  {
    match l
    case NONE => "NONE"
    case ERROR => "ERROR"
    case WARN => "WARN"
    case INFO => "INFO"
    case DEBUG => "DEBUG"
  }

  /** `level.compareTo(current) <= 0`: enum comparison is by ordinal. */
  predicate IsEnabled(l: Level, current: Level)
  {
    Ordinal(l) <= Ordinal(current)
  }

  /** Ordinals identify levels, so the gate is a total order on Level. */
  lemma OrdinalInjective(a: Level, b: Level)
    ensures Ordinal(a) == Ordinal(b) ==> a == b
  {
  }

  /** The writer levels a logger admits are exactly the first Ordinal(current) of them. */
  lemma EnabledWritersArePrefix(current: Level)
    ensures forall i :: 0 <= i < |WriterLevels| ==>
      (IsEnabled(WriterLevels[i], current) <==> i < Ordinal(current))
  {
  }

  /** Raising the current level never disables a level that was enabled. */
  lemma EnabledMonotone(l: Level, current: Level, raised: Level)
    requires IsEnabled(l, current)
    requires Ordinal(current) <= Ordinal(raised)
    ensures IsEnabled(l, raised)
  {
  }

  /** The enabled levels are closed downwards: every level below an enabled one is enabled too. */
  lemma EnabledDownwardClosed(l: Level, current: Level)
    ensures IsEnabled(l, current) ==> forall l' :: Ordinal(l') <= Ordinal(l) ==> IsEnabled(l', current)
  {
  }

  /** A logger at NONE admits no writer level; a logger at DEBUG admits every level. */
  lemma NoneSilencesDebugAdmitsAll(l: Level)
    ensures l != NONE ==> !IsEnabled(l, NONE)
    ensures IsEnabled(l, DEBUG)
  {
  }
}
