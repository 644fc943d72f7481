/**
 * The small part of java.lang.String, java.lang.Character and Spring's StringUtils
 * that the services rely on, stated over Dafny strings (sequences of characters).
 */
module JavaStrings {

  /** A Java reference that may be null. */
  datatype Option<+T> = None | Some(value: T) {
    function GetOr(default: T): T {
      match this
      case Some(v) => v
      case None => default
    }
  }

  /** A value or the exception that replaced it. */
  datatype Result<+T, +E> = Success(value: T) | Failure(error: E) {
    predicate IsFailure() {
      Failure?
    }

    function PropagateFailure<U>(): Result<U, E>
      requires Failure?
    {
      Failure(error)
    }

    function Extract(): T
      requires Success?
    {
      value
    }
  }

  /** Java's rendering of a possibly-null string in a concatenation: null prints as "null". */
  function Render(s: Option<string>): (r: string)
    ensures s.Some? ==> r == s.value
    ensures s.None? ==> r == "null"
  {
    s.GetOr("null")
  }

  /** Character.isWhitespace: the Unicode space separators except the no-break ones, and the ASCII controls. */
  predicate IsWhitespace(c: char) {
    || c == ' ' || c == '\t' || c == '\n' || c == '\U{000B}' || c == '\U{000C}' || c == '\r'
    || ('\U{001C}' <= c <= '\U{001F}')
    || c == '\U{1680}' || ('\U{2000}' <= c <= '\U{2006}') || ('\U{2008}' <= c <= '\U{200A}')
    || c == '\U{2028}' || c == '\U{2029}' || c == '\U{205F}' || c == '\U{3000}'
  }

  /** What String.trim() removes: every character up to and including the space. */
  predicate IsTrimmable(c: char) {
    c <= ' '
  }

  /** StringUtils.hasText: the string holds at least one non-whitespace character. */
  predicate HasText(s: string) {
    exists i | 0 <= i < |s| :: !IsWhitespace(s[i])
  }

  /** A character that is not whitespace gives the string text. */
  lemma HasTextAt(s: string, i: nat)
    requires i < |s| && !IsWhitespace(s[i])
    ensures HasText(s)
  {
  }

  /** StringUtils.hasText on a possibly-null string. */
  predicate HasTextOpt(s: Option<string>) {
    s.Some? && HasText(s.value)
  }

  /** Drops leading characters that satisfy `drop`. */
  function DropLeading(s: string, drop: char -> bool): (r: string)
    ensures |r| <= |s| && r == s[|s| - |r|..]
    ensures r != [] ==> !drop(r[0])
    ensures forall i | 0 <= i < |s| - |r| :: drop(s[i])
  {
    if s != [] && drop(s[0]) then
      var r := DropLeading(s[1..], drop);
      assert s[1..][|s| - 1 - |r|..] == s[|s| - |r|..];
      assert forall i | 1 <= i < |s| - |r| :: s[i] == s[1..][i - 1];
      r
    else s
  }

  /** Drops trailing characters that satisfy `drop`. */
  function DropTrailing(s: string, drop: char -> bool): (r: string)
    ensures |r| <= |s| && r == s[..|r|]
    ensures r != [] ==> !drop(r[|r| - 1])
    ensures forall i | |r| <= i < |s| :: drop(s[i])
  {
    if s != [] && drop(s[|s| - 1]) then DropTrailing(s[..|s| - 1], drop) else s
  }

  /** String.strip(): removes leading and trailing Character.isWhitespace characters. */
  function Strip(s: string): (r: string)
    ensures r != [] ==> !IsWhitespace(r[0]) && !IsWhitespace(r[|r| - 1])
  {
    DropTrailing(DropLeading(s, IsWhitespace), IsWhitespace)
  }

  /** String.trim(): removes leading and trailing characters up to the space. */
  function Trim(s: string): (r: string)
    ensures r != [] ==> !IsTrimmable(r[0]) && !IsTrimmable(r[|r| - 1])
  {
    DropTrailing(DropLeading(s, IsTrimmable), IsTrimmable)
  }

  /** The strip keeps every non-whitespace character: a string with text strips to a non-empty one. */
  lemma StripKeepsText(s: string)
    requires HasText(s)
    ensures Strip(s) != []
  {
    var i :| 0 <= i < |s| && !IsWhitespace(s[i]);
    StripKeepsChar(s, i);
  }

  /** The strip keeps every character that is not whitespace. */
  lemma StripKeepsChar(v: string, q: nat)
    requires q < |v| && !IsWhitespace(v[q])
    ensures v[q] in Strip(v)
  {
    var k := DropLeading(v, IsWhitespace);
    var off := |v| - |k|;
    assert off <= q;
    assert k[q - off] == v[q];
    var r := DropTrailing(k, IsWhitespace);
    assert |r| > q - off;
    assert r[q - off] == v[q];
  }

  /** A leading whitespace character makes no difference to the strip. */
  lemma StripLeadingBlank(s: string)
    requires s != [] && IsWhitespace(s[0])
    ensures Strip(s) == Strip(s[1..])
  {
  }

  /** A string that neither starts nor ends with whitespace strips to itself. */
  lemma StripUnpadded(s: string)
    requires s != [] && !IsWhitespace(s[0]) && !IsWhitespace(s[|s| - 1])
    ensures Strip(s) == s
  {
  }

  /** Strip returns a contiguous piece of its input. */
  lemma StripIsInfix(s: string) returns (i: nat, j: nat)
    ensures i <= j <= |s| && Strip(s) == s[i..j]
  {
    var a := DropLeading(s, IsWhitespace);
    i := |s| - |a|;
    j := i + |Strip(s)|;
    assert Strip(s) == a[..|Strip(s)|];
  }

  function LowerChar(c: char): char {
    if 'A' <= c <= 'Z' then (c - 'A' + 'a') as char else c
  }

  /** String.toLowerCase() on the ASCII letters (the only letters the model's inputs use). */
  function ToLower(s: string): (r: string)
    ensures |r| == |s|
    ensures forall i | 0 <= i < |s| :: r[i] == LowerChar(s[i])
  {
    seq(|s|, i requires 0 <= i < |s| => LowerChar(s[i]))
  }

  predicate StartsWith(s: string, prefix: string) {
    |prefix| <= |s| && s[..|prefix|] == prefix
  }

  predicate EndsWith(s: string, suffix: string) {
    |suffix| <= |s| && s[|s| - |suffix|..] == suffix
  }

  /** String.contains. */
  predicate Contains(s: string, t: string) {
    StartsWith(s, t) || (s != [] && Contains(s[1..], t))
  }

  /** No position holds `a` immediately followed by `b`. */
  predicate NoPair(s: string, a: char, b: char) {
    forall i | 0 <= i < |s| - 1 :: !(s[i] == a && s[i + 1] == b)
  }

  /** `a` and `b` never meet across the seam of a concatenation. */
  lemma NoPairConcat(x: string, y: string, a: char, b: char)
    requires NoPair(x, a, b) && NoPair(y, a, b)
    requires x != [] && y != [] ==> !(x[|x| - 1] == a && y[0] == b)
    ensures NoPair(x + y, a, b)
  {
    var s := x + y;
    forall i | 0 <= i < |s| - 1
      ensures !(s[i] == a && s[i + 1] == b)
    {
      if i + 1 < |x| {
        assert s[i] == x[i] && s[i + 1] == x[i + 1];
      } else if i >= |x| {
        assert s[i] == y[i - |x|] && s[i + 1] == y[i + 1 - |x|];
      }
    }
  }

  lemma NoPairInfix(s: string, i: nat, j: nat, a: char, b: char)
    requires i <= j <= |s| && NoPair(s, a, b)
    ensures NoPair(s[i..j], a, b)
  {
    var t := s[i..j];
    forall k | 0 <= k < |t| - 1
      ensures !(t[k] == a && t[k + 1] == b)
    {
      assert t[k] == s[i + k] && t[k + 1] == s[i + k + 1];
    }
  }

  /** Decimal digits of a natural number, as Integer.toString prints it. */
  function NatToString(n: nat): (r: string)
    ensures r != [] && forall i | 0 <= i < |r| :: '0' <= r[i] <= '9'
  {
    var d := ['0' + (n % 10) as char];
    if n < 10 then d else NatToString(n / 10) + d
  }
}
