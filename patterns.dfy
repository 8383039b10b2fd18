/** The fragment of regular expressions the field validators use: an anchored
    (`^...$`) sequence of atoms, each a character class repeated a fixed number of
    times (`[A-Z]{4}`, `\d{10}`, a literal character). Such a pattern has a single
    way to match, so matching needs no backtracking. */
module Patterns {
  import opened Text

  datatype CharClass = UpperLetter | AsciiDigit | Literal(c: char)

  /** `cls{count}`. */
  datatype Atom = Atom(cls: CharClass, count: nat)

  predicate InClass(c: char, cls: CharClass)
  {
    match cls
    case UpperLetter => IsUpper(c)
    case AsciiDigit => IsDigit(c)
    case Literal(l) => c == l
  }

  /** Total length of the strings a pattern matches. */
  function Width(pattern: seq<Atom>): nat
  {
    if pattern == [] then 0 else pattern[0].count + Width(pattern[1..])
  }

  /** `re.fullmatch(pattern, s)`: the atoms consume `s` left to right, each taking
      exactly `count` characters of its class. */
  predicate FullMatch(pattern: seq<Atom>, s: string)
  {
    if pattern == [] then s == []
    else
      var a := pattern[0];
      && a.count <= |s|
      && (forall i :: 0 <= i < a.count ==> InClass(s[i], a.cls))
      && FullMatch(pattern[1..], s[a.count..])
  }

  /** A matched string is exactly as long as the pattern is wide. */
  lemma {:induction false} FullMatchWidth(pattern: seq<Atom>, s: string)
    requires FullMatch(pattern, s)
    ensures |s| == Width(pattern)
  {
    if pattern != [] {
      FullMatchWidth(pattern[1..], s[pattern[0].count..]);
    }
  }
}
