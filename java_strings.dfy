/** The string helpers the setup flow relies on: Guava's `Strings.nullToEmpty`
    and `Strings.emptyToNull`, and `java.lang.String.trim`. */
module JavaStrings {
  import opened Optional

  /** `Strings.nullToEmpty`. */
  function NullToEmpty(s: Option<string>): string
  {
    if s.Some? then s.value else ""
  }

  /** `Strings.emptyToNull`. */
  function EmptyToNull(s: Option<string>): Option<string>
  {
    if s.Some? && s.value != "" then s else None
  }

  /** The characters `String.trim` strips from either end: every code point
      up to and including the space, U+0020. */
  predicate IsSpaceOrControl(c: char)
  {
    c <= ' '
  }

  /** Drops the leading characters `String.trim` strips. */
  function TrimStart(s: string): (r: string)
    ensures |r| <= |s| && r == s[|s| - |r|..]
    ensures r == [] || !IsSpaceOrControl(r[0])
    ensures forall i :: 0 <= i < |s| - |r| ==> IsSpaceOrControl(s[i])
    decreases |s|
  {
    if s != [] && IsSpaceOrControl(s[0]) then TrimStart(s[1..]) else s
  }

  /** Drops the trailing characters `String.trim` strips. */
  function TrimEnd(s: string): (r: string)
    ensures |r| <= |s| && r == s[..|r|]
    ensures r == [] || !IsSpaceOrControl(r[|r| - 1])
    ensures forall i :: |r| <= i < |s| ==> IsSpaceOrControl(s[i])
    decreases |s|
  {
    if s != [] && IsSpaceOrControl(s[|s| - 1]) then TrimEnd(s[..|s| - 1]) else s
  }

  /** `String.trim`: drops the leading and trailing characters up to U+0020.
      What remains neither starts nor ends with one. */
  function Trim(s: string): (r: string)
    ensures |r| <= |s|
    ensures r == [] || (!IsSpaceOrControl(r[0]) && !IsSpaceOrControl(r[|r| - 1]))
  {
    TrimEnd(TrimStart(s))
  }

  /** Trimming leaves nothing exactly when the text is all spaces and
      control characters. */
  lemma {:induction false} TrimEmptyIffBlank(s: string)
    ensures Trim(s) == [] <==> forall i :: 0 <= i < |s| ==> IsSpaceOrControl(s[i])
  {
  }

  /** What `Trim` keeps is an infix of its input, and everything it cuts off
      on either side is a space or control character. */
  lemma {:induction false} TrimKeepsInfix(s: string)
    ensures var r, lead := Trim(s), |s| - |TrimStart(s)|;
      && lead + |r| <= |s|
      && r == s[lead..lead + |r|]
      && (forall i :: 0 <= i < lead ==> IsSpaceOrControl(s[i]))
      && (forall i :: lead + |r| <= i < |s| ==> IsSpaceOrControl(s[i]))
  {
    var start := TrimStart(s);
    var lead := |s| - |start|;
    var r := TrimEnd(start);
    assert start == s[lead..];
    assert r == start[..|r|];
    forall i | lead + |r| <= i < |s|
      ensures IsSpaceOrControl(s[i])
    {
      assert s[i] == start[i - lead];
    }
  }

  /** Trimming a trimmed string changes nothing. */
  lemma {:induction false} TrimIdempotent(s: string)
    ensures Trim(Trim(s)) == Trim(s)
  {
    var t := Trim(s);
    if t != [] {
      assert TrimStart(t) == t;
      assert TrimEnd(t) == t;
    }
  }
}
