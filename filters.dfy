/**
 * The `truncate` display filter of the web front end: a text longer than
 * the limit is cut to the limit and marked with a suffix.
 */
module Filters {
  import opened Wrappers

  function Clamp(x: int, len: nat): (r: nat)
    ensures r <= len
  {
    if x < 0 then 0 else if x > len then len else x
  }

  /**
   * JavaScript's `s.substring(start, end)`: both bounds are clamped to
   * `[0, s.length]` and swapped when the start is the larger.
   */
  function Substring(s: string, start: int, end: int): (r: string)
    ensures 0 <= start <= end <= |s| ==> r == s[start..end]
    ensures start <= 0 ==> r == s[..Clamp(end, |s|)]
  {
    var a, b := Clamp(start, |s|), Clamp(end, |s|);
    if a <= b then s[a..b] else s[b..a]
  }

  const DefaultSuffix: string := "..."

  /** `suffix || '...'`: a missing or empty suffix is falsy and yields the default. */
  function EffectiveSuffix(suffix: Option<string>): (r: string)
    ensures suffix.None? || suffix == Some("") ==> r == DefaultSuffix
    ensures suffix.Some? && suffix.value != "" ==> r == suffix.value
    ensures r != ""
  {
    match suffix
    case Some(s) => if s != "" then s else DefaultSuffix
    case None => DefaultSuffix
  }

  function Min(a: int, b: int): int {
    if a <= b then a else b
  }

  /**
   * `truncate(value, maxLength, suffix)`: `suffix` is None when the caller
   * does not pass one. A limit below zero cuts to nothing, as `substring`
   * does.
   */
  function Truncate(value: string, maxLength: int, suffix: Option<string>): (r: string)
    ensures |value| <= maxLength ==> r == value
    ensures 0 <= maxLength < |value| ==> r == value[..maxLength] + EffectiveSuffix(suffix)
    ensures 0 <= maxLength < |value| ==> |r| == maxLength + |EffectiveSuffix(suffix)|
    ensures maxLength < 0 && |value| > maxLength ==> r == EffectiveSuffix(suffix)
    ensures var keep := Clamp(Min(|value|, maxLength), |value|);
      keep <= |r| && r[..keep] == value[..keep]
  {
    var suffix := EffectiveSuffix(suffix);
    if |value| > maxLength then Substring(value, 0, maxLength) + suffix else value
  }
}
