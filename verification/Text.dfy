/** The Python string operations the model needs: whitespace and stripping. */
module Text {

  /** `str.isspace` for one character. */
  predicate IsSpace(c: char) {
    || c == ' ' || '\U{9}' <= c <= '\U{d}' || '\U{1c}' <= c <= '\U{1f}'
    || c == '\U{85}' || c == '\U{a0}' || c == '\U{1680}' || '\U{2000}' <= c <= '\U{200a}'
    || c == '\U{2028}' || c == '\U{2029}' || c == '\U{202f}' || c == '\U{205f}' || c == '\U{3000}'
  }

  function LStrip(s: string): string {
    if s != [] && IsSpace(s[0]) then LStrip(s[1..]) else s
  }

  function RStrip(s: string): string {
    if s != [] && IsSpace(s[|s| - 1]) then RStrip(s[..|s| - 1]) else s
  }

  function Strip(s: string): string { RStrip(LStrip(s)) }

  /** No whitespace at either end. */
  predicate Trimmed(s: string) { s != [] ==> !IsSpace(s[0]) && !IsSpace(s[|s| - 1]) }

  /** The characters other than whitespace, in order. */
  function Ink(s: string): string {
    if s == [] then []
    else
      var front, c := Ink(s[..|s| - 1]), s[|s| - 1];
      if IsSpace(c) then front else front + [c]
  }

  lemma {:induction false} InkConcat(a: string, b: string)
    ensures Ink(a + b) == Ink(a) + Ink(b)
  {
    if b == [] {
      assert a + b == a;
    } else {
      assert (a + b)[..|a + b| - 1] == a + b[..|b| - 1];
      InkConcat(a, b[..|b| - 1]);
    }
  }

  lemma {:induction false} InkOfTail(s: string)
    requires s != [] && IsSpace(s[0])
    ensures Ink(s[1..]) == Ink(s)
  {
    assert s == [s[0]] + s[1..];
    InkConcat([s[0]], s[1..]);
    assert [s[0]][..0] == [];
  }

  lemma {:induction false} LStripFacts(s: string)
    ensures exists k :: 0 <= k <= |s| && LStrip(s) == s[k..]
    ensures LStrip(s) != [] ==> !IsSpace(LStrip(s)[0])
    ensures Ink(LStrip(s)) == Ink(s)
  {
    hide IsSpace;
    if s != [] && IsSpace(s[0]) {
      LStripFacts(s[1..]);
      var k :| 0 <= k <= |s[1..]| && LStrip(s[1..]) == s[1..][k..];
      assert LStrip(s) == s[k + 1..];
      InkOfTail(s);
    } else {
      assert LStrip(s) == s[0..];
    }
  }

  lemma {:induction false} RStripFacts(s: string)
    ensures exists k :: 0 <= k <= |s| && RStrip(s) == s[..k]
    ensures RStrip(s) != [] ==> !IsSpace(RStrip(s)[|RStrip(s)| - 1])
    ensures Ink(RStrip(s)) == Ink(s)
  {
    hide IsSpace;
    if s != [] && IsSpace(s[|s| - 1]) {
      RStripFacts(s[..|s| - 1]);
      var k :| 0 <= k <= |s| - 1 && RStrip(s[..|s| - 1]) == s[..|s| - 1][..k];
      assert RStrip(s) == s[..k];
    } else {
      assert RStrip(s) == s[..|s|];
    }
  }

  /** Stripping leaves a trimmed part of the string that holds all its ink. */
  lemma {:induction false} StripFacts(s: string)
    ensures Trimmed(Strip(s)) && Ink(Strip(s)) == Ink(s)
    ensures |Strip(s)| <= |s|
    ensures exists i, j :: 0 <= i <= j <= |s| && Strip(s) == s[i..j]
  {
    hide IsSpace, Ink, LStrip, RStrip;
    LStripFacts(s);
    var t := LStrip(s);
    var i :| 0 <= i <= |s| && t == s[i..];
    RStripFacts(t);
    var k :| 0 <= k <= |t| && RStrip(t) == t[..k];
    assert Strip(s) == s[i..i + k];
    if k > 0 { assert Strip(s)[0] == t[0]; }
  }

  lemma {:induction false} StripTrimmed(s: string)
    requires Trimmed(s)
    ensures Strip(s) == s
  {}

  lemma {:induction false} NoInkMeansBlank(s: string)
    requires Ink(s) == []
    ensures Strip(s) == []
  {
    StripFacts(s);
  }
}
