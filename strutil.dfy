/** The string helper of package strutil (strutil/is.go). */
module Strutil {
  import opened Wrappers

  /** IsEmpty reports whether a possibly-nil string pointer is nil or points at
      the empty string. A pointer is an `Option<string>`: `None` is nil and
      `Some(s)` points at `s`. The length test reads `s.value`, which Dafny only
      allows once `s.Some?` is known, so the short-circuiting `||` is what keeps
      a nil pointer from being dereferenced. */
  function IsEmpty(s: Option<string>): (r: bool)
    ensures r <==> s == None || s == Some("")
    ensures !r ==> s.Some? && |s.value| > 0
  {
    s.None? || |s.value| == 0
  }

  /** The answer depends on nil-ness and length only, never on the characters. */
  lemma IsEmptyDependsOnLengthOnly(a: Option<string>, b: Option<string>)
    requires a.Some? <==> b.Some?
    requires a.Some? ==> |a.value| == |b.value|
    ensures IsEmpty(a) == IsEmpty(b)
  {
  }
}
