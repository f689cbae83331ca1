/**
 SLF4J's message formatting as the handler uses it: the first `{}` anchor
 of the pattern is replaced by the single argument.
 */
module Logging {

  /** The pattern holds no `{}` anchor. */
  predicate AnchorFree(s: string)
    decreases |s|
  {
    |s| < 2 || (!(s[0] == '{' && s[1] == '}') && AnchorFree(s[1..]))
  }

  /** Formats `pattern` with one argument, substituting the first anchor. */
  function Format(pattern: string, arg: string): (r: string)
    ensures AnchorFree(pattern) ==> r == pattern
    decreases |pattern|
  {
    if |pattern| < 2 then pattern
    else if pattern[0] == '{' && pattern[1] == '}' then arg + pattern[2..]
    else [pattern[0]] + Format(pattern[1..], arg)
  }

  /** A pattern without an opening brace has no anchor. */
  lemma {:induction false} BraceFreeIsAnchorFree(s: string)
    requires '{' !in s
    ensures AnchorFree(s)
    decreases |s|
  {
    if |s| >= 2 {
      assert s[0] in s;
      assert forall c :: c in s[1..] ==> c in s;
      BraceFreeIsAnchorFree(s[1..]);
    }
  }

  /** A pattern that opens with an anchor gets the argument in its place. */
  lemma FormatSubstitutes(suffix: string, arg: string)
    ensures Format("{}" + suffix, arg) == arg + suffix
  {
    assert ("{}" + suffix)[2..] == suffix;
  }

  /** The argument lands exactly where the first anchor stood; the rest of the pattern is kept. */
  lemma {:induction false} FormatFillsFirstAnchor(prefix: string, suffix: string, arg: string)
    requires AnchorFree(prefix)
    ensures Format(prefix + "{}" + suffix, arg) == prefix + arg + suffix
  {
    if |prefix| == 0 {
      assert prefix + "{}" + suffix == "{}" + suffix;
      FormatSubstitutes(suffix, arg);
    } else {
      var p := prefix + "{}" + suffix;
      var tail := prefix[1..];
      assert p[0] == prefix[0] && (p[1] == '{' || p[1] == prefix[1]);
      assert p[1..] == tail + "{}" + suffix;
      FormatFillsFirstAnchor(tail, suffix, arg);
      assert prefix + arg + suffix == [prefix[0]] + (tail + arg + suffix);
    }
  }
}
