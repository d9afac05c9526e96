/**
 * `sanitizeInput` (server.js): a string is trimmed and then every `<` and `>`
 * is deleted; any other value is returned as it is.
 */
module Sanitize {
  import opened Json

  /** The characters `String.prototype.trim` removes: ECMAScript WhiteSpace and LineTerminator. */
  predicate IsTrimmable(c: char) {
    || c == '\t' || c == '\n' || c == '\U{000B}' || c == '\U{000C}' || c == '\r' || c == ' '
    || c == '\U{00A0}' || c == '\U{1680}' || ('\U{2000}' <= c <= '\U{200A}')
    || c == '\U{2028}' || c == '\U{2029}' || c == '\U{202F}' || c == '\U{205F}'
    || c == '\U{3000}' || c == '\U{FEFF}'
  }

  predicate IsAngle(c: char) {
    c == '<' || c == '>'
  }

  ghost predicate Blank(s: string) {
    forall i :: 0 <= i < |s| ==> IsTrimmable(s[i])
  }

  ghost predicate NoAngles(s: string) {
    forall i :: 0 <= i < |s| ==> !IsAngle(s[i])
  }

  /** `s` without its leading whitespace: a suffix of `s`, preceded only by whitespace. */
  function TrimStart(s: string): (r: string)
    ensures |r| <= |s| && r == s[|s| - |r|..]
    ensures Blank(s[..|s| - |r|])
    ensures r == [] || !IsTrimmable(r[0])
  {
    if s != [] && IsTrimmable(s[0]) then TrimStart(s[1..]) else s
  }

  /** `s` without its trailing whitespace: a prefix of `s`, followed only by whitespace. */
  function TrimEnd(s: string): (r: string)
    ensures |r| <= |s| && r == s[..|r|]
    ensures Blank(s[|r|..])
    ensures r == [] || !IsTrimmable(r[|r| - 1])
  {
    if s != [] && IsTrimmable(s[|s| - 1]) then TrimEnd(s[..|s| - 1]) else s
  }

  /** `input.trim()`: the slice of `s` between its leading and its trailing whitespace. */
  function Trim(s: string): (r: string)
    ensures var lo := |s| - |TrimStart(s)|;
      && lo + |r| <= |s|
      && r == s[lo..lo + |r|]
      && Blank(s[..lo]) && Blank(s[lo + |r|..])
    ensures r == [] || (!IsTrimmable(r[0]) && !IsTrimmable(r[|r| - 1]))
  {
    var t := TrimStart(s);
    var r := TrimEnd(t);
    SliceOfSuffix(s, t, r);
    BlankSuffix(s, t, r);
    TrimEndKeepsHead(t);
    r
  }

  /** A prefix `r` of a suffix `t` of `s` is a slice of `s`; what follows `r` in `t` follows it in `s`. */
  lemma SliceOfSuffix(s: string, t: string, r: string)
    requires |t| <= |s| && t == s[|s| - |t|..]
    requires |r| <= |t| && r == t[..|r|]
    ensures r == s[|s| - |t|..|s| - |t| + |r|]
  {
  }

  lemma BlankSuffix(s: string, t: string, r: string)
    requires |t| <= |s| && t == s[|s| - |t|..]
    requires |r| <= |t| && Blank(t[|r|..])
    ensures Blank(s[|s| - |t| + |r|..])
  {
    assert t[|r|..] == s[|s| - |t| + |r|..];
  }

  /** Trimming the end of a string that does not start with whitespace keeps that first character. */
  lemma TrimEndKeepsHead(t: string)
    requires t == [] || !IsTrimmable(t[0])
    ensures var r := TrimEnd(t); r == [] || !IsTrimmable(r[0])
  {
  }

  /** `replace(/[<>]/g, '')`. */
  function StripAngles(s: string): (r: string)
    ensures NoAngles(r)
    ensures |r| <= |s|
    ensures NoAngles(s) ==> r == s
  {
    if s == [] then []
    else
      var rest := StripAngles(s[1..]);
      if IsAngle(s[0]) then rest else [s[0]] + rest
  }

  /** Every character except `<` and `>` is kept, as often as it occurs. */
  lemma {:induction false} StripAnglesKeepsOthers(s: string)
    ensures forall c :: !IsAngle(c) ==> multiset(StripAngles(s))[c] == multiset(s)[c]
  {
    if s != [] {
      assert s == [s[0]] + s[1..];
      StripAnglesKeepsOthers(s[1..]);
    }
  }

  /** Deleting the brackets works character by character: it distributes over concatenation. */
  lemma {:induction false} StripAnglesAppend(a: string, b: string)
    ensures StripAngles(a + b) == StripAngles(a) + StripAngles(b)
  {
    if a == [] {
      assert a + b == b;
    } else {
      assert (a + b)[1..] == a[1..] + b;
      StripAnglesAppend(a[1..], b);
    }
  }

  /** Trimming a trimmed string changes nothing. */
  lemma TrimIdempotent(s: string)
    ensures Trim(Trim(s)) == Trim(s)
  {
    var r := Trim(s);
    assert TrimStart(r) == r;
    assert TrimEnd(r) == r;
  }

  /** `sanitizeInput(input)`. */
  function SanitizeInput(v: Value): (r: Value)
    ensures !v.Str? ==> r == v
    ensures v.Str? ==> r.Str? && NoAngles(r.s) && |r.s| <= |v.s|
  {
    match v
    case Str(s) => Str(StripAngles(Trim(s)))
    case _ => v
  }

  /**
   * Apart from the edge whitespace trim removes, sanitizing deletes only angle
   * brackets: every other character occurs as often as in the trimmed input, and
   * the untrimmed remainder of the input is whitespace.
   */
  lemma SanitizeDeletesOnlyAngles(s: string)
    ensures var r := SanitizeInput(Str(s)).s; var t := Trim(s);
      && (forall c :: !IsAngle(c) ==> multiset(r)[c] == multiset(t)[c])
      && Blank(s[..|s| - |TrimStart(s)|]) && Blank(s[|s| - |TrimStart(s)| + |t|..])
  {
    StripAnglesKeepsOthers(Trim(s));
  }

  /** A string that is already trimmed and free of angle brackets passes through unchanged. */
  lemma SanitizeKeepsClean(s: string)
    requires NoAngles(s)
    requires s == [] || (!IsTrimmable(s[0]) && !IsTrimmable(s[|s| - 1]))
    ensures SanitizeInput(Str(s)) == Str(s)
  {
    assert TrimStart(s) == s;
    assert TrimEnd(s) == s;
  }

  /**
   * Trimming happens before the brackets are deleted, so a bracket that shielded
   * whitespace leaves that whitespace at the edge: sanitizing twice differs from once.
   */
  lemma SanitizeNotIdempotent()
    ensures SanitizeInput(Str(" <> a")) == Str(" a")
    ensures SanitizeInput(SanitizeInput(Str(" <> a"))) == Str("a")
  {
    FirstPass();
    SecondPass();
  }

  lemma FirstPass()
    ensures SanitizeInput(Str(" <> a")) == Str(" a")
  {
    FirstTrim();
    FirstStrip();
  }

  lemma FirstTrim()
    ensures Trim(" <> a") == "<> a"
  {
    TrimStartExample();
    TrimEndExample();
  }

  lemma TrimStartExample()
    ensures TrimStart(" <> a") == "<> a"
  {
    assert " <> a"[1..] == "<> a";
    assert !IsTrimmable('<');
    assert TrimStart("<> a") == "<> a";
  }

  lemma TrimEndExample()
    ensures TrimEnd("<> a") == "<> a"
  {
    assert !IsTrimmable('a');
  }

  lemma FirstStrip()
    ensures StripAngles("<> a") == " a"
  {
    assert "<> a"[1..] == "> a";
    assert "> a"[1..] == " a";
    assert StripAngles("> a") == " a";
  }

  lemma SecondPass()
    ensures SanitizeInput(Str(" a")) == Str("a")
  {
    SecondTrim();
    SecondStrip();
  }

  lemma SecondTrim()
    ensures Trim(" a") == "a"
  {
    assert " a"[1..] == "a";
  }

  lemma SecondStrip()
    ensures StripAngles("a") == "a"
  {
    assert "a"[1..] == "";
  }
}
