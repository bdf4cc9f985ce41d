/** The handful of Python `str` operations the core relies on. */
module Strings {

  predicate StartsWith(s: string, prefix: string) {
    |prefix| <= |s| && s[..|prefix|] == prefix
  }

  /** `s.endswith(suffix)` */
  predicate EndsWith(s: string, suffix: string) {
    |suffix| <= |s| && s[|s| - |suffix|..] == suffix
  }

  /** `t in s` for strings: `t` occurs as a contiguous substring of `s`. */
  predicate Contains(s: string, t: string) {
    exists i | 0 <= i <= |s| - |t| :: OccursAt(s, t, i)
  }

  predicate OccursAt(s: string, t: string, i: int) {
    0 <= i <= |s| - |t| && s[i..i + |t|] == t
  }

  /** `s.replace(pat, "")`: one left-to-right pass removing non-overlapping occurrences. */
  function RemoveAll(s: string, pat: string): (r: string)
    requires pat != ""
    ensures |r| <= |s|
    decreases |s|
  {
    if s == "" then ""
    else if StartsWith(s, pat) then RemoveAll(s[|pat|..], pat)
    else [s[0]] + RemoveAll(s[1..], pat)
  }

  /** `s.lower()` on ASCII letters (the model does not case-fold other characters). */
  function Lower(s: string): (r: string)
    ensures |r| == |s|
  {
    if s == "" then ""
    else [LowerChar(s[0])] + Lower(s[1..])
  }

  function LowerChar(c: char): char {
    if 'A' <= c <= 'Z' then (c as int + 32) as char else c
  }

  /** The characters `str.strip()` removes: those `str.isspace()` accepts. */
  predicate IsSpace(c: char) {
    || ('\t' <= c <= '\r') || ('\U{001C}' <= c <= ' ') || c == '\U{0085}' || c == '\U{00A0}' || c == '\U{1680}'
    || ('\U{2000}' <= c <= '\U{200A}') || c == '\U{2028}' || c == '\U{2029}' || c == '\U{202F}' || c == '\U{205F}'
    || c == '\U{3000}'
  }

  function TrimLeft(s: string): (r: string)
    ensures |r| <= |s|
  {
    if s != "" && IsSpace(s[0]) then TrimLeft(s[1..]) else s
  }

  function TrimRight(s: string): (r: string)
    ensures |r| <= |s|
  {
    if s != "" && IsSpace(s[|s| - 1]) then TrimRight(s[..|s| - 1]) else s
  }

  /** `s.strip()` */
  function Strip(s: string): string {
    TrimRight(TrimLeft(s))
  }

  /** A substring holds every character of what it is found in: a string without `c` contains no text with `c`. */
  lemma NotContains(s: string, t: string, c: char)
    requires c in t && c !in s
    ensures !Contains(s, t)
  {
    var j :| 0 <= j < |t| && t[j] == c;
    forall i | 0 <= i <= |s| - |t|
      ensures !OccursAt(s, t, i)
    {
      assert s[i + j] == s[i..i + |t|][j];
    }
  }

  /** Text read in text mode: `\r\n` and a lone `\r` both become `\n` (Python's universal newlines). */
  function Universal(s: string): (r: string)
    ensures |r| <= |s| && '\r' !in r
    decreases |s|
  {
    if s == "" then ""
    else if s[0] == '\r' then "\n" + Universal(if |s| > 1 && s[1] == '\n' then s[2..] else s[1..])
    else [s[0]] + Universal(s[1..])
  }

  /** Text written in text mode on Windows: every `\n` goes out as `\r\n`. */
  function Crlf(s: string): (r: string)
    ensures |s| <= |r| <= 2 * |s|
    ensures forall i | 0 <= i < |r| :: r[i] == '\r' || r[i] in s
  {
    if s == "" then "" else (if s[0] == '\n' then "\r\n" else [s[0]]) + Crlf(s[1..])
  }

  /** Text without carriage returns is left as it is by the newline translation. */
  lemma {:induction false} UniversalNoReturn(s: string)
    requires '\r' !in s
    ensures Universal(s) == s
  {
    if s != "" {
      assert '\r' !in s[1..] by {
        forall i | 0 <= i < |s[1..]| ensures s[1..][i] != '\r' { assert s[1..][i] == s[i + 1]; }
      }
      UniversalNoReturn(s[1..]);
      assert s == [s[0]] + s[1..];
    }
  }

  /** Text without carriage returns, written with `\r\n` line ends, reads back in text mode as it was. */
  lemma {:induction false} CrlfReadsBack(s: string)
    requires '\r' !in s
    ensures Universal(Crlf(s)) == s
  {
    if s != "" {
      assert '\r' !in s[1..] by {
        forall i | 0 <= i < |s[1..]| ensures s[1..][i] != '\r' { assert s[1..][i] == s[i + 1]; }
      }
      CrlfReadsBack(s[1..]);
      if s[0] == '\n' {
        assert Crlf(s) == "\r\n" + Crlf(s[1..]);
        assert Crlf(s)[2..] == Crlf(s[1..]);
      } else {
        assert Crlf(s) == [s[0]] + Crlf(s[1..]);
        assert Crlf(s)[1..] == Crlf(s[1..]);
      }
    }
  }

  /** A lone carriage return ends a line, as a line feed does. */
  lemma LoneReturnEndsLine()
    ensures Lines(Universal("a\rb")) == ["a\n", "b"]
  {
    assert Universal("a\rb") == "a\nb" by {
      assert Universal("b") == "b";
      assert Universal("\rb") == "\n" + Universal("b");
    }
    assert LineLength("b") == 1 && "b"[..1] == "b" && "b"[1..] == "";
    assert Lines("b") == ["b"] + Lines("");
    assert LineLength("a\nb") == 2 && "a\nb"[..2] == "a\n" && "a\nb"[2..] == "b";
  }

  /** Length of the first line of `s`, its terminating newline included. */
  function LineLength(s: string): (n: nat)
    ensures n <= |s|
    ensures s != "" ==> n >= 1
  {
    if s == "" then 0 else if s[0] == '\n' then 1 else 1 + LineLength(s[1..])
  }

  /** The lines a Python text file yields when iterated, each with its newline. */
  function Lines(s: string): seq<string>
    decreases |s|
  {
    if s == "" then [] else [s[..LineLength(s)]] + Lines(s[LineLength(s)..])
  }
}
