/** The two string formatters the reports use on names. */
module Formatters {
  import opened Common
  import opened Text

  /** `truncateString`: an empty string or one that fits is returned as is; a longer one is
      cut to `maxLength - 3` characters (none when that is negative) followed by "...". */
  function TruncateString(s: string, maxLength: int): (r: string)
    ensures s == [] || |s| <= maxLength ==> r == s
    ensures s != [] && |s| > maxLength ==>
      && |r| == Max(maxLength, 3)
      && r[|r| - 3..] == "..."
      && r[..|r| - 3] == s[..|r| - 3]
  {
    if s == [] || |s| <= maxLength then s
    else s[..Max(0, maxLength - 3)] + "..."
  }

  /** With room for the ellipsis, truncating twice is truncating once. */
  lemma TruncateStringIdempotent(s: string, maxLength: int)
    requires maxLength >= 3
    ensures TruncateString(TruncateString(s, maxLength), maxLength) == TruncateString(s, maxLength)
  {
  }

  /** Below three characters the ellipsis alone is longer than the limit. */
  lemma TruncateStringShortLimit()
    ensures TruncateString("abcd", 1) == "..."
  {
  }

  /** `formatModelDisplayName`: the empty name and "unknown" become "Unknown Model"; any other
      name keeps its length, gets its first character upper-cased, and has every later dash
      turned into a space. */
  function FormatModelDisplayName(name: string): (r: string)
    ensures name == "" || name == "unknown" ==> r == "Unknown Model"
    ensures name != "" && name != "unknown" ==>
      && |r| == |name|
      && r[0] == UpperChar(name[0])
      && (forall i :: 0 < i < |name| ==> r[i] != '-')
      && (forall i :: 0 < i < |name| && name[i] != '-' ==> r[i] == name[i])
  {
    if name == "" || name == "unknown" then "Unknown Model"
    else [UpperChar(name[0])] + DashesToSpaces(name[1..])
  }

  function DashesToSpaces(s: string): (r: string)
    ensures |r| == |s|
    ensures forall i :: 0 <= i < |s| ==> r[i] == if s[i] == '-' then ' ' else s[i]
  {
    seq(|s|, i requires 0 <= i < |s| => if s[i] == '-' then ' ' else s[i])
  }
}
