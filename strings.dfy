/**
 * The parts of java.lang.String the core relies on: `trim()`, and the test
 * `s != null && !s.trim().isEmpty()` that guards every optional overwrite.
 */
module Strings {
  import opened Wrappers

  /** `trim()` strips every character at or below U+0020 from both ends. */
  predicate IsTrimmed(c: char) {
    c <= ' '
  }

  function TrimStart(s: string): (r: string)
    ensures |r| <= |s| && r == s[|s| - |r|..]
    ensures r != [] ==> !IsTrimmed(r[0])
    ensures forall i | 0 <= i < |s| - |r| :: IsTrimmed(s[i])
  {
    if |s| > 0 && IsTrimmed(s[0]) then TrimStart(s[1..]) else s
  }

  function TrimEnd(s: string): (r: string)
    ensures |r| <= |s| && r == s[..|r|]
    ensures r != [] ==> !IsTrimmed(r[|r| - 1])
    ensures forall i | |r| <= i < |s| :: IsTrimmed(s[i])
  {
    if |s| > 0 && IsTrimmed(s[|s| - 1]) then TrimEnd(s[..|s| - 1]) else s
  }

  /** Java's `String.trim()`. */
  function Trim(s: string): string {
    TrimEnd(TrimStart(s))
  }

  /** Every character of `s` is one `trim()` removes. */
  predicate Blank(s: string) {
    forall i | 0 <= i < |s| :: IsTrimmed(s[i])
  }

  /** `s.trim().isEmpty()` holds exactly for blank strings. */
  lemma TrimEmptyIffBlank(s: string)
    ensures Trim(s) == [] <==> Blank(s)
  {
  }

  /** `v != null && !v.trim().isEmpty()`: the value carries some text. */
  predicate HasText(v: Option<string>) {
    v.Some? && Trim(v.value) != []
  }

  /** A field keeps `current` unless `incoming` has text, in which case it becomes `incoming`. */
  function Overwrite(current: string, incoming: Option<string>): (r: string)
    ensures r == current || (HasText(incoming) && r == incoming.value)
    ensures HasText(incoming) ==> r == incoming.value
  {
    if HasText(incoming) then incoming.value else current
  }

  /** Overwriting twice with the same value is overwriting once. */
  lemma OverwriteIdempotent(current: string, incoming: Option<string>)
    ensures Overwrite(Overwrite(current, incoming), incoming) == Overwrite(current, incoming)
  {
  }

  /** An overwrite changes a field only with a value that has a non-blank character. */
  lemma OverwriteNeedsText(current: string, incoming: Option<string>)
    ensures Overwrite(current, incoming) != current ==>
              incoming.Some? && exists i :: 0 <= i < |incoming.value| && !IsTrimmed(incoming.value[i])
  {
    if Overwrite(current, incoming) != current {
      TrimEmptyIffBlank(incoming.value);
    }
  }
}
