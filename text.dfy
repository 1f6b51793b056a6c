/** The pieces of Go's `strings` package the core relies on, over ASCII text:
    whitespace trimming, trimming a character set, removing every occurrence
    of a character, case mapping, substring search and the byte-wise ordering
    SQLite uses to compare TEXT values. */
module Text {

  /** ASCII white space as `strings.TrimSpace` sees it. */
  predicate IsSpace(c: char)
  {
    c == ' ' || c == '\t' || c == '\n' || c == '\r' || c == '\U{000B}' || c == '\U{000C}'
  }

  function TrimLeftWhile(s: string, p: char -> bool): (r: string)
    ensures |r| <= |s|
    ensures r != [] ==> !p(r[0])
  {
    if s != [] && p(s[0]) then TrimLeftWhile(s[1..], p) else s
  }

  function TrimRightWhile(s: string, p: char -> bool): (r: string)
    ensures r <= s
    ensures r != [] ==> !p(r[|r| - 1])
  {
    if s != [] && p(s[|s| - 1]) then TrimRightWhile(s[..|s| - 1], p) else s
  }

  /** `strings.TrimSpace`: leading and trailing white space removed. */
  function TrimSpace(s: string): (r: string)
    ensures r != [] ==> !IsSpace(r[0]) && !IsSpace(r[|r| - 1])
  {
    TrimRightWhile(TrimLeftWhile(s, IsSpace), IsSpace)
  }

  /** `strings.Trim(s, cut)`: leading and trailing characters of `cut` removed. */
  function TrimChars(s: string, cut: set<char>): (r: string)
    ensures r != [] ==> r[0] !in cut && r[|r| - 1] !in cut
  {
    TrimRightWhile(TrimLeftWhile(s, c => c in cut), c => c in cut)
  }

  /** Trimming leaves text alone whose ends are outside `cut`. */
  lemma TrimCharsKeeps(s: string, cut: set<char>)
    requires s == [] || (s[0] !in cut && s[|s| - 1] !in cut)
    ensures TrimChars(s, cut) == s
  {
  }

  /** Trimming strips one character of `cut` from each end of `t` when `t`'s
      own ends are outside `cut`. */
  lemma TrimCharsStrips(a: char, t: string, b: char, cut: set<char>)
    requires a in cut && b in cut && t != [] && t[0] !in cut && t[|t| - 1] !in cut
    ensures TrimChars([a] + t + [b], cut) == t
  {
    var s := [a] + t + [b];
    var p := c => c in cut;
    assert s[1..] == t + [b];
    assert TrimLeftWhile(t + [b], p) == t + [b];
    assert TrimLeftWhile(s, p) == t + [b];
    assert (t + [b])[..|t|] == t;
    assert TrimRightWhile(t, p) == t;
    assert TrimRightWhile(t + [b], p) == t;
  }

  /** `strings.ReplaceAll(s, [c], "")`. */
  function RemoveChar(s: string, c: char): (r: string)
    ensures |r| <= |s|
    ensures c !in r
  {
    if s == [] then []
    else (if s[0] == c then [] else [s[0]]) + RemoveChar(s[1..], c)
  }

  lemma {:induction false} RemoveCharKeeps(s: string, c: char)
    requires c !in s
    ensures RemoveChar(s, c) == s
  {
    if s != [] {
      RemoveCharKeeps(s[1..], c);
      assert [s[0]] + s[1..] == s;
    }
  }

  predicate IsUpperAscii(c: char) { 'A' <= c <= 'Z' }
  predicate IsLowerAscii(c: char) { 'a' <= c <= 'z' }
  predicate IsDigit(c: char) { '0' <= c <= '9' }

  function UpperChar(c: char): char
  {
    if IsLowerAscii(c) then (c as int - 32) as char else c
  }

  function LowerChar(c: char): char
  {
    if IsUpperAscii(c) then (c as int + 32) as char else c
  }

  /** `strings.ToUpper` on ASCII letters. */
  function ToUpper(s: string): (r: string)
    ensures |r| == |s|
    ensures forall k :: 0 <= k < |s| ==> r[k] == UpperChar(s[k])
  {
    if s == [] then [] else [UpperChar(s[0])] + ToUpper(s[1..])
  }

  /** `strings.ToLower` on ASCII letters. */
  function ToLower(s: string): (r: string)
    ensures |r| == |s|
    ensures forall k :: 0 <= k < |s| ==> r[k] == LowerChar(s[k])
  {
    if s == [] then [] else [LowerChar(s[0])] + ToLower(s[1..])
  }

  predicate HasPrefix(s: string, prefix: string)
  {
    |prefix| <= |s| && s[..|prefix|] == prefix
  }

  predicate HasSuffix(s: string, suffix: string)
  {
    |suffix| <= |s| && s[|s| - |suffix|..] == suffix
  }

  /** `strings.Contains`: `sub` occurs somewhere in `s`. */
  predicate Contains(s: string, sub: string)
    decreases |s|
  {
    HasPrefix(s, sub) || (s != [] && Contains(s[1..], sub))
  }

  lemma ContainsAt(s: string, sub: string, k: nat)
    requires k + |sub| <= |s| && s[k..k + |sub|] == sub
    ensures Contains(s, sub)
    decreases k
  {
    if k > 0 {
      assert s[1..][k - 1..k - 1 + |sub|] == sub;
      ContainsAt(s[1..], sub, k - 1);
    }
  }

  /** Byte-wise ordering of text, the order SQLite applies to TEXT columns. */
  predicate TextLe(a: string, b: string)
  {
    a == [] || (b != [] && (a[0] < b[0] || (a[0] == b[0] && TextLe(a[1..], b[1..]))))
  }

  lemma {:induction false} TextLeTotal(a: string, b: string)
    ensures TextLe(a, b) || TextLe(b, a)
  {
    if a != [] && b != [] && a[0] == b[0] {
      TextLeTotal(a[1..], b[1..]);
    }
  }

  lemma {:induction false} TextLeTrans(a: string, b: string, c: string)
    requires TextLe(a, b) && TextLe(b, c)
    ensures TextLe(a, c)
  {
    if a != [] && b != [] && c != [] && a[0] == b[0] && b[0] == c[0] {
      TextLeTrans(a[1..], b[1..], c[1..]);
    }
  }

  lemma {:induction false} TextLeAntisym(a: string, b: string)
    requires TextLe(a, b) && TextLe(b, a)
    ensures a == b
  {
    if a != [] && b != [] {
      TextLeAntisym(a[1..], b[1..]);
      assert a == [a[0]] + a[1..] && b == [b[0]] + b[1..];
    }
  }
}
