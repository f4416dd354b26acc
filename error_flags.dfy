/**
 * The `[Flags]` enum `deviceErrorsEnum` of the device agent and the text
 * .NET's `Enum.ToString()` gives it: "None" for 0, the names of the set
 * flags in ascending bit order joined by ", " when every set bit has a
 * name, and the plain decimal number otherwise.
 */
module ErrorFlags {
  import opened Wrappers
  import opened Numerics

  const NoErrors := "None"

  /** The name of flag `1 << i`, spelled exactly as the enum spells it. */
  function FlagName(i: nat): (name: string)
    requires i < 4
    ensures |name| > 0 && name[0] == "EPSU"[i]
  {
    ["EmergencyStop", "PowerFailure", "SensorFailrule", "UnknownFailrule"][i]
  }

  /** `1 << i`. */
  function Bit(i: nat): (b: nat)
    requires i <= 4
    ensures b > 0
  {
    [1, 2, 4, 8, 16][i]
  }

  predicate HasFlag(e: int, i: nat)
    requires i < 4
  {
    (e / Bit(i)) % 2 == 1
  }

  /** The names of the flags of `e` at positions `i` and above, ascending, joined by ", ". */
  function NamesFrom(e: int, i: nat): string
    requires i <= 4
    decreases 4 - i
  {
    if i == 4 then ""
    else
      var rest := NamesFrom(e, i + 1);
      if !HasFlag(e, i) then rest
      else if rest == "" then FlagName(i)
      else FlagName(i) + ", " + rest
  }

  /** The part of `e` made of its flags at positions `i` and above. */
  function FlagsFrom(e: int, i: nat): nat
    requires i <= 4
    decreases 4 - i
  {
    if i == 4 then 0
    else (if HasFlag(e, i) then Bit(i) else 0) + FlagsFrom(e, i + 1)
  }

  /** `((deviceErrorsEnum)e).ToString()`. */
  function ErrorsToString(e: Int32): (s: string)
    ensures s == NoErrors <==> e == 0
    ensures |s| > 0
  {
    if e == 0 then NoErrors
    else if 0 < e < 16 then
      NamesStartWithFlag(e, 0);
      NamesFrom(e, 0)
    else IntToString(e)
  }

  // ---------------------------------------------------------------------------
  // Reading the text back (the inverse that `Enum.Parse` provides)

  predicate StartsWith(s: string, prefix: string) {
    |prefix| <= |s| && s[..|prefix|] == prefix
  }

  /** Reads a ", "-joined list of flag names at positions `i` and above, in ascending order. */
  function ParseNamesFrom(s: string, i: nat): Option<int>
    requires i <= 4
    decreases 4 - i
  {
    if i == 4 then (if s == "" then Some(0) else None)
    else if StartsWith(s, FlagName(i)) then
      var rest := s[|FlagName(i)|..];
      if rest == "" then Some(Bit(i))
      else if StartsWith(rest, ", ") then
        match ParseNamesFrom(rest[2..], i + 1)
        case Some(v) => Some(Bit(i) + v)
        case None => None
      else None
    else ParseNamesFrom(s, i + 1)
  }

  /** The error code an error string stands for, if it is one `ErrorsToString` can produce. */
  function ErrorCode(s: string): Option<int> {
    if s == NoErrors then Some(0)
    else if |s| > 0 && (s[0] == '-' || IsDigit(s[0])) then ParseInt(s)
    else ParseNamesFrom(s, 0)
  }

  // ---------------------------------------------------------------------------
  // Lemmas

  lemma {:induction false} NamesEmptyIffNoFlags(e: int, i: nat)
    requires i <= 4
    ensures NamesFrom(e, i) == "" <==> FlagsFrom(e, i) == 0
    decreases 4 - i
  {
    if i < 4 {
      NamesEmptyIffNoFlags(e, i + 1);
    }
  }

  /** A non-empty name list starts with the initial of a flag at position `i` or above. */
  lemma {:induction false} NamesStartWithFlag(e: int, i: nat)
    requires i <= 4
    ensures NamesFrom(e, i) != "" ==> i < 4 && NamesFrom(e, i)[0] in "EPSU"[i..]
    decreases 4 - i
  {
    if i < 4 {
      NamesStartWithFlag(e, i + 1);
      if !HasFlag(e, i) && NamesFrom(e, i) != "" {
        assert "EPSU"[i + 1..] == "EPSU"[i..][1..];
      }
    }
  }

  /** A name list of flags above position `i` does not start with the name of flag `i`. */
  lemma SkipsAbsentFlag(e: int, i: nat)
    requires i < 4
    ensures !StartsWith(NamesFrom(e, i + 1), FlagName(i))
  {
    NamesStartWithFlag(e, i + 1);
  }

  /** Reading `name + ", " + rest` consumes the name and the separator. */
  lemma ParseNamedPrefix(rest: string, i: nat)
    requires i < 4 && rest != ""
    ensures ParseNamesFrom(FlagName(i) + ", " + rest, i) ==
      match ParseNamesFrom(rest, i + 1)
      case Some(v) => Some(Bit(i) + v)
      case None => None
  {
    var s := FlagName(i) + ", " + rest;
    assert s[..|FlagName(i)|] == FlagName(i);
    assert s[|FlagName(i)|..] == ", " + rest;
    assert (", " + rest)[..2] == ", ";
    assert (", " + rest)[2..] == rest;
  }

  /** Reading a text that does not start with the name of flag `i` moves on to flag `i + 1`. */
  lemma ParseSkipsFlag(s: string, i: nat)
    requires i < 4 && !StartsWith(s, FlagName(i))
    ensures ParseNamesFrom(s, i) == ParseNamesFrom(s, i + 1)
  {
  }

  /** Reading a lone flag name gives that flag. */
  lemma ParseSingleName(i: nat)
    requires i < 4
    ensures ParseNamesFrom(FlagName(i), i) == Some(Bit(i))
  {
    assert FlagName(i)[..|FlagName(i)|] == FlagName(i);
  }

  lemma {:induction false} ParseNamesRoundTrip(e: int, i: nat)
    requires i <= 4
    ensures ParseNamesFrom(NamesFrom(e, i), i) == Some(FlagsFrom(e, i))
    decreases 4 - i
  {
    if i < 4 {
      var rest := NamesFrom(e, i + 1);
      ParseNamesRoundTrip(e, i + 1);
      if !HasFlag(e, i) {
        assert NamesFrom(e, i) == rest;
        SkipsAbsentFlag(e, i);
        ParseSkipsFlag(rest, i);
      } else if rest != "" {
        NamesEmptyIffNoFlags(e, i + 1);
        assert NamesFrom(e, i) == FlagName(i) + ", " + rest;
        ParseNamedPrefix(rest, i);
      } else {
        NamesEmptyIffNoFlags(e, i + 1);
        assert NamesFrom(e, i) == FlagName(i);
        ParseSingleName(i);
      }
    }
  }

  lemma FlagsFromIsValue(e: int)
    requires 0 <= e < 16
    ensures FlagsFrom(e, 0) == e
  {
  }

  /** The error string determines the error code: `ErrorCode` undoes `ErrorsToString`. */
  lemma ErrorsToStringRoundTrip(e: Int32)
    ensures ErrorCode(ErrorsToString(e)) == Some(e)
  {
    if e != 0 {
      var s := ErrorsToString(e);
      if 0 < e < 16 {
        NamesStartWithFlag(e, 0);
        ParseNamesRoundTrip(e, 0);
        FlagsFromIsValue(e);
      } else {
        ParseIntToString(e);
      }
    }
  }

  /** Two error codes render to the same string exactly when they are the same code. */
  lemma ErrorsToStringInjective(a: Int32, b: Int32)
    ensures ErrorsToString(a) == ErrorsToString(b) <==> a == b
  {
    ErrorsToStringRoundTrip(a);
    ErrorsToStringRoundTrip(b);
  }

  /** Each single flag renders as its own name, and 0 as "None". */
  lemma SingleFlagNames()
    ensures ErrorsToString(0) == "None"
    ensures ErrorsToString(1) == "EmergencyStop"
    ensures ErrorsToString(2) == "PowerFailure"
    ensures ErrorsToString(4) == "SensorFailrule"
    ensures ErrorsToString(8) == "UnknownFailrule"
  {
    assert NamesFrom(1, 1) == "" && NamesFrom(2, 2) == "" && NamesFrom(4, 3) == "";
  }

  /** A combination renders its names in ascending bit order; a value with an unnamed bit renders as a number. */
  lemma CombinedAndUnnamedFlags()
    ensures ErrorsToString(5) == "EmergencyStop, SensorFailrule"
    ensures ErrorsToString(16) == "16"
    ensures ErrorsToString(-1) == "-1"
  {
    assert NamesFrom(5, 3) == "" && NamesFrom(5, 2) == "SensorFailrule";
  }
}
