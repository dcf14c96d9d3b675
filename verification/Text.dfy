/** The few string operations the modelled code relies on. Characters are compared one by one;
    digits and white space are the ASCII ones. */
module Text {
  predicate IsDigit(c: char) { '0' <= c <= '9' }

  predicate IsSpace(c: char) { c == ' ' || '\t' <= c <= '\r' }

  /** True for a non-empty string of digits. */
  predicate IsDigits(s: string) { |s| > 0 && forall i :: 0 <= i < |s| ==> IsDigit(s[i]) }

  function ParseNat(s: string): nat
    requires forall i :: 0 <= i < |s| ==> IsDigit(s[i])
  {
    if s == "" then 0 else
    assert IsDigit(s[|s| - 1]);
    10 * ParseNat(s[..|s| - 1]) + (s[|s| - 1] as int - '0' as int)
  }

  function NatText(n: nat): string {
    if n < 10 then [('0' as int + n) as char] else NatText(n / 10) + NatText(n % 10)
  }

  function IntText(n: int): string { if n < 0 then "-" + NatText(-n) else NatText(n) }

  /** Printing a number and reading it back gives the number. */
  lemma {:induction false} ParsePrinted(n: nat)
    ensures IsDigits(NatText(n)) && ParseNat(NatText(n)) == n
  {
    if n < 10 {
      assert ParseNat(NatText(n)[..0]) == 0;
    } else {
      ParsePrinted(n / 10);
      ParsePrinted(n % 10);
      assert NatText(n)[..|NatText(n)| - 1] == NatText(n / 10);
    }
  }

  function TrimLeft(s: string): string {
    if s != "" && IsSpace(s[0]) then TrimLeft(s[1..]) else s
  }

  function TrimRight(s: string): string {
    if s != "" && IsSpace(s[|s| - 1]) then TrimRight(s[..|s| - 1]) else s
  }

  function Trim(s: string): string { TrimRight(TrimLeft(s)) }

  function Lower(s: string): (r: string)
    ensures |r| == |s|
  {
    seq(|s|, i requires 0 <= i < |s| =>
      if 'A' <= s[i] <= 'Z' then (s[i] as int + 32) as char else s[i])
  }

  /** A string with no white space at either end. */
  predicate Trimmed(s: string) { s == "" || (!IsSpace(s[0]) && !IsSpace(s[|s| - 1])) }

  lemma {:induction false} TrimLeftStarts(s: string)
    ensures TrimLeft(s) == "" || !IsSpace(TrimLeft(s)[0])
    decreases |s|
  {
    if s != "" && IsSpace(s[0]) { TrimLeftStarts(s[1..]); }
  }

  lemma {:induction false} TrimRightEnds(s: string)
    ensures TrimRight(s) <= s
    ensures TrimRight(s) == "" || !IsSpace(TrimRight(s)[|TrimRight(s)| - 1])
    decreases |s|
  {
    if s != "" && IsSpace(s[|s| - 1]) { TrimRightEnds(s[..|s| - 1]); }
  }

  /** Trimming leaves no white space at the ends, and trimmed strings are left alone. */
  lemma TrimIsTrimmed(s: string)
    ensures Trimmed(Trim(s))
    ensures Trimmed(s) ==> Trim(s) == s
  {
    TrimLeftStarts(s);
    TrimRightEnds(TrimLeft(s));
  }

  function StripSlashLeft(s: string): string {
    if s != "" && s[0] == '/' then StripSlashLeft(s[1..]) else s
  }

  function StripSlashRight(s: string): string {
    if s != "" && s[|s| - 1] == '/' then StripSlashRight(s[..|s| - 1]) else s
  }

  function StripSlash(s: string): string { StripSlashRight(StripSlashLeft(s)) }

  /** The text after the last slash. */
  function LastSegment(s: string): string {
    if s == "" || s[|s| - 1] == '/' then "" else LastSegment(s[..|s| - 1]) + [s[|s| - 1]]
  }

  /** The text before the last slash, or nothing when there is none. */
  function BeforeLastSegment(s: string): string {
    if s == "" then "" else if s[|s| - 1] == '/' then s[..|s| - 1] else BeforeLastSegment(s[..|s| - 1])
  }

  /** Puts a slash at both ends of a path. */
  function NormalizePath(path: string): (r: string)
    ensures r != "" && r[0] == '/' && r[|r| - 1] == '/'
  {
    var trimmed := Trim(path);
    var rooted := if trimmed != "" && trimmed[0] == '/' then trimmed else "/" + trimmed;
    if rooted[|rooted| - 1] == '/' then rooted else rooted + "/"
  }

  /** Normalized paths stay as they are. */
  lemma NormalizePathIdempotent(path: string)
    ensures NormalizePath(NormalizePath(path)) == NormalizePath(path)
  {
    TrimIsTrimmed(NormalizePath(path));
  }

  /** White space is the blank and the five control characters from tab to carriage return. */
  lemma {:induction false} SpacesAre(c: char)
    ensures IsSpace(c) <==> c as int in {9, 10, 11, 12, 13, 32}
  {
  }

  predicate AllSpace(s: string) { forall i :: 0 <= i < |s| ==> IsSpace(s[i]) }

  lemma {:induction false} TrimLeftIs(s: string) returns (before: string)
    ensures s == before + TrimLeft(s) && AllSpace(before)
    decreases |s|
  {
    before := "";
    if s != "" && IsSpace(s[0]) {
      var rest := TrimLeftIs(s[1..]);
      before := [s[0]] + rest;
    }
  }

  lemma {:induction false} TrimRightIs(s: string) returns (after: string)
    ensures s == TrimRight(s) + after && AllSpace(after)
    decreases |s|
  {
    after := "";
    if s != "" && IsSpace(s[|s| - 1]) {
      var rest := TrimRightIs(s[..|s| - 1]);
      after := rest + [s[|s| - 1]];
    }
  }

  /** Trimming takes away white space, at the two ends, and nothing else. */
  lemma {:induction false} TrimIs(s: string) returns (before: string, after: string)
    ensures s == before + Trim(s) + after && AllSpace(before) && AllSpace(after)
  {
    before := TrimLeftIs(s);
    after := TrimRightIs(TrimLeft(s));
  }

  /** Lower case changes the 26 letters, and nothing else. */
  lemma {:induction false} LowerIs(s: string, i: nat)
    requires i < |s|
    ensures 'A' <= s[i] <= 'Z' ==> Lower(s)[i] as int - 'a' as int == s[i] as int - 'A' as int
    ensures !('A' <= s[i] <= 'Z') ==> Lower(s)[i] == s[i]
  {
  }

  /** A normalized path is the trimmed one, with a slash put before it and after it where there was none. */
  lemma {:induction false} NormalizePathIs(path: string)
    ensures var t, r := Trim(path), NormalizePath(path);
      && (t == "" ==> r == "/")
      && (t != "" ==>
           r == (if t[0] == '/' then "" else "/") + t + (if t[|t| - 1] == '/' then "" else "/"))
  {
  }

  /** A negative number is printed as its opposite after a minus sign. */
  lemma {:induction false} IntTextIs(n: int)
    ensures n >= 0 ==> IsDigits(IntText(n)) && ParseNat(IntText(n)) == n
    ensures n < 0 ==> IntText(n)[0] == '-' && IsDigits(IntText(n)[1..]) && ParseNat(IntText(n)[1..]) == -n
  {
    ParsePrinted(if n >= 0 then n else -n);
  }
}
