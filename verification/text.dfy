/**
  The string helpers of the service: the two slash-trimming functions used
  to build the base path, and JavaScript's `String.prototype.trim`, which the
  required-string guard relies on.
 */
module Text {
  import opened Strip

  predicate IsSlash(c: char) {
    c == '/'
  }

  // The three predicates below are the generic ones of `Strip` instantiated
  // at the slash class; they exist only to give the slash case a name.

  /** `s` is a (possibly empty) run of slashes. */
  predicate Slashes(s: string) {
    AllIn(s, IsSlash)
  }

  /** `trimTrailingSlash`: a single regular-expression replacement of one or
      more slashes anchored at the end of the input. The repetition is greedy,
      so it removes the whole trailing run of slashes and nothing else. */
  function TrimTrailingSlash(input: string): (r: string)
    ensures r <= input
    ensures |r| == 0 || r[|r| - 1] != '/'
    ensures Slashes(input[|r|..])
  {
    StripEnd(input, IsSlash)
  }

  /** Any prefix of `input` that does not end in a slash and is followed only
      by slashes is the result of `TrimTrailingSlash`. */
  lemma TrimTrailingSlashUnique(input: string, r: string)
    requires r <= input
    requires |r| == 0 || r[|r| - 1] != '/'
    requires Slashes(input[|r|..])
    ensures TrimTrailingSlash(input) == r
  {
    StripEndUnique(input, IsSlash, r);
  }

  /** Trimming trailing slashes twice is the same as once. */
  lemma TrimTrailingSlashIdempotent(input: string)
    ensures TrimTrailingSlash(TrimTrailingSlash(input)) == TrimTrailingSlash(input)
  {
    var r := TrimTrailingSlash(input);
    TrimTrailingSlashUnique(r, r);
  }

  /** `r` neither starts nor ends with a slash. */
  predicate NoEdgeSlash(r: string) {
    !StartsIn(r, IsSlash) && !EndsIn(r, IsSlash)
  }

  /** `r` sits in `input` at offset `i` with only slashes before and after it. */
  predicate FramedBySlashes(input: string, i: nat, r: string) {
    FramedIn(input, i, r, IsSlash)
  }

  /** `trimSlashes`: a global regular-expression replacement of a slash run
      anchored at the start or at the end. It removes the leading run and the
      trailing run of slashes; when the input is all slashes, the leading
      alternative consumes all of it. */
  function TrimSlashes(input: string): (r: string)
    ensures NoEdgeSlash(r)
    ensures exists i :: FramedBySlashes(input, i, r)
  {
    SlashRunsAround(input);
    StripBoth(input, IsSlash)
  }

  /** The frame of `StripBoth` restated for slashes. */
  lemma SlashRunsAround(input: string)
    ensures NoEdgeSlash(StripBoth(input, IsSlash))
    ensures FramedBySlashes(input, |input| - |StripStart(input, IsSlash)|, StripBoth(input, IsSlash))
  {
    var r := StripBoth(input, IsSlash);
    StripBothFrame(input, IsSlash);
    var i := |input| - |StripStart(input, IsSlash)|;
    assert FramedIn(input, i, r, IsSlash);
  }

  /** A slash run, a middle that neither starts nor ends with a slash, and a
      slash run: the middle is the result of `TrimSlashes`. */
  lemma TrimSlashesUnique(input: string, i: nat, r: string)
    requires FramedBySlashes(input, i, r)
    requires NoEdgeSlash(r)
    ensures TrimSlashes(input) == r
  {
    assert FramedIn(input, i, r, IsSlash);
    StripBothUnique(input, IsSlash, i, r);
  }

  /** `TrimSlashes` yields the empty string exactly for inputs made only of slashes. */
  lemma TrimSlashesEmptyIff(input: string)
    ensures TrimSlashes(input) == "" <==> Slashes(input)
  {
    StripBothEmptyIff(input, IsSlash);
  }

  /** Trimming slashes twice is the same as once. */
  lemma TrimSlashesIdempotent(input: string)
    ensures TrimSlashes(TrimSlashes(input)) == TrimSlashes(input)
  {
    var r := TrimSlashes(input);
    assert r == r[0..0 + |r|] && r[..0] == "" && r[|r|..] == "";
    TrimSlashesUnique(r, 0, r);
  }

  /** The characters `String.prototype.trim` removes: the ECMAScript
      WhiteSpace and LineTerminator code points. */
  predicate IsWhitespace(c: char) {
    || c == '\t' || c == '\n' || c == '\U{000B}' || c == '\U{000C}' || c == '\r'
    || c == ' ' || c == '\U{00A0}' || c == '\U{1680}'
    || ('\U{2000}' <= c <= '\U{200A}')
    || c == '\U{2028}' || c == '\U{2029}' || c == '\U{202F}' || c == '\U{205F}'
    || c == '\U{3000}' || c == '\U{FEFF}'
  }

  /** `s` has no character other than whitespace (the empty string included):
      `Strip.AllIn` at the whitespace class. */
  predicate Blank(s: string) {
    AllIn(s, IsWhitespace)
  }

  /** `String.prototype.trim`: removes leading and trailing whitespace. */
  function Trim(s: string): (r: string)
    ensures |r| == 0 || (!IsWhitespace(r[0]) && !IsWhitespace(r[|r| - 1]))
    ensures |r| <= |s|
    ensures r == "" <==> Blank(s)
    ensures exists i :: FramedIn(s, i, r, IsWhitespace)
  {
    TrimFrame(s);
    StripBoth(s, IsWhitespace)
  }

  /** The contract of `Trim`, proved of `StripBoth` at the whitespace class. */
  lemma TrimFrame(s: string)
    ensures var r := StripBoth(s, IsWhitespace);
            && (|r| == 0 || (!IsWhitespace(r[0]) && !IsWhitespace(r[|r| - 1])))
            && |r| <= |s|
            && (r == "" <==> Blank(s))
            && exists i :: FramedIn(s, i, r, IsWhitespace)
  {
    StripBothEmptyIff(s, IsWhitespace);
    var r := StripBoth(s, IsWhitespace);
    var i :| FramedIn(s, i, r, IsWhitespace);
  }
}
