/** Splitting a document into overlapping chunks (`chunk_text`,
    backend/app/knowledge/document_processing.py). */
module Chunking {
  import opened Basics
  import opened Text

  // ---- Lines and paragraphs ----------------------------------------------------------

  /** The line boundaries of `str.splitlines`. */
  predicate IsBreak(c: char) {
    || '\U{a}' <= c <= '\U{d}' || '\U{1c}' <= c <= '\U{1e}'
    || c == '\U{85}' || c == '\U{2028}' || c == '\U{2029}'
  }

  function FirstBreak(s: string): (j: nat)
    ensures j <= |s|
    ensures j < |s| ==> IsBreak(s[j])
  {
    if s == [] || IsBreak(s[0]) then 0 else 1 + FirstBreak(s[1..])
  }

  function SplitLines(s: string): seq<string>
    decreases |s|
  {
    if s == [] then []
    else
      var j := FirstBreak(s);
      if j == |s| then [s]
      else
        var skip := if s[j] == '\r' && j + 1 < |s| && s[j + 1] == '\n' then 2 else 1;
        [s[..j]] + SplitLines(s[j + skip..])
  }

  function JoinLines(lines: seq<string>): string {
    if lines == [] then []
    else if |lines| == 1 then RStrip(lines[0])
    else RStrip(lines[0]) + "\n" + JoinLines(lines[1..])
  }

  function FirstBlankLine(s: string): (j: nat)
    ensures j <= |s|
    ensures j < |s| ==> j + 1 < |s| && s[j] == '\n' && s[j + 1] == '\n'
  {
    if s == [] then 0
    else if |s| >= 2 && s[0] == '\n' && s[1] == '\n' then 0
    else 1 + FirstBlankLine(s[1..])
  }

  /** `split("\n\n")` with blank parts dropped and the others stripped. */
  function SplitParagraphs(s: string): seq<string>
    decreases |s|
  {
    var j := FirstBlankLine(s);
    var part := Strip(s[..j]);
    var rest := if j == |s| then [] else SplitParagraphs(s[j + 2..]);
    if part == [] then rest else [part] + rest
  }

  function Normalized(text: string): string { Strip(JoinLines(SplitLines(text))) }

  function Paragraphs(text: string): seq<string> { SplitParagraphs(Normalized(text)) }

  // ---- The packing of paragraphs --------------------------------------------------------

  datatype Sizes = Sizes(size: nat, overlap: nat) {
    predicate Valid() { 200 <= size <= 4000 && overlap <= size / 2 }

    /** How far each slice of a long paragraph starts behind the one before it. */
    function Advance(): nat
      requires Valid()
    {
      size - overlap
    }
  }

  function SafeSizes(chunkSize: int, overlap: int): (z: Sizes)
    ensures z.Valid()
  {
    var size := Min(Max(chunkSize, 200), 4000);
    Sizes(size, Min(Max(overlap, 0), size / 2))
  }

  /** The slices of a paragraph from `start` on, each stripped. */
  function Slices(z: Sizes, p: string, start: nat): seq<string>
    requires z.Valid() && start <= |p|
    decreases |p| - start
  {
    if start == |p| then []
    else
      var end := Min(|p|, start + z.size);
      [Strip(p[start..end])] + (if end == |p| then [] else Slices(z, p, Max(end - z.overlap, start + 1)))
  }

  datatype Packing = Packing(chunks: seq<string>, current: string)

  function LastChars(s: string, n: nat): string { if n >= |s| then s else s[|s| - n..] }

  function Glue(a: string, b: string): string { Strip(a + "\n\n" + b) }

  function Feed(z: Sizes, k: Packing, p: string): Packing
    requires z.Valid()
  {
    if |p| > z.size then
      Packing((if k.current != [] then k.chunks + [Strip(k.current)] else k.chunks) + Slices(z, p, 0), [])
    else
      var candidate := if k.current != [] then Glue(k.current, p) else p;
      if |candidate| <= z.size then k.(current := candidate)
      else
        var prefix := if z.overlap > 0 && k.current != [] then Strip(LastChars(k.current, z.overlap)) else [];
        Packing(k.chunks + [Strip(k.current)], if prefix != [] then Glue(prefix, p) else p)
  }

  function Pack(z: Sizes, paragraphs: seq<string>): Packing
    requires z.Valid()
  {
    if paragraphs == [] then Packing([], [])
    else Feed(z, Pack(z, paragraphs[..|paragraphs| - 1]), paragraphs[|paragraphs| - 1])
  }

  function NonEmpty(chunks: seq<string>): seq<string> {
    if chunks == [] then []
    else
      var front, c := NonEmpty(chunks[..|chunks| - 1]), chunks[|chunks| - 1];
      if c == [] then front else front + [c]
  }

  function Finish(k: Packing): seq<string> {
    NonEmpty(if k.current != [] then k.chunks + [Strip(k.current)] else k.chunks)
  }

  function Chunks(text: string, z: Sizes): seq<string>
    requires z.Valid()
  {
    var paragraphs := Paragraphs(text);
    Finish(Pack(z, if paragraphs != [] then paragraphs else [Normalized(text)]))
  }

  // ---- Splitting and stripping lose no ink --------------------------------------------------

  function Concat(parts: seq<string>): string {
    if parts == [] then [] else Concat(parts[..|parts| - 1]) + parts[|parts| - 1]
  }

  lemma {:induction false} ConcatOf(a: seq<string>, b: seq<string>)
    ensures Concat(a + b) == Concat(a) + Concat(b)
  {
    if b == [] {
      assert a + b == a;
    } else {
      assert (a + b)[..|a + b| - 1] == a + b[..|b| - 1] && (a + b)[|a + b| - 1] == b[|b| - 1];
      ConcatOf(a, b[..|b| - 1]);
      assert Concat(a) + Concat(b[..|b| - 1]) + b[|b| - 1] == Concat(a) + (Concat(b[..|b| - 1]) + b[|b| - 1]);
    }
  }

  lemma ConcatPush(a: seq<string>, s: string)
    ensures Concat(a + [s]) == Concat(a) + s
  {}

  lemma InkThree(a: string, b: string, c: string)
    ensures Ink(a + b + c) == Ink(a) + Ink(b) + Ink(c)
  {
    InkConcat(a + b, c);
    InkConcat(a, b);
  }

  lemma {:induction false} BlankHasNoInk(s: string)
    requires forall i :: 0 <= i < |s| ==> IsSpace(s[i])
    ensures Ink(s) == []
  {
    if s != [] { BlankHasNoInk(s[..|s| - 1]); }
  }

  lemma {:induction false} JoinCons(line: string, lines: seq<string>)
    ensures Ink(JoinLines([line] + lines)) == Ink(line) + Ink(JoinLines(lines))
  {
    hide IsSpace, IsBreak, RStrip;
    RStripFacts(line);
    assert ([line] + lines)[1..] == lines;
    if lines == [] {
      EmptyConcat();
      assert Ink(line) + [] == Ink(line);
    } else {
      InkThree(RStrip(line), "\n", JoinLines(lines));
      BreakGap("\n");
    }
  }

  /** The first line, the blank gap behind it, and the rest. */
  lemma {:induction false} FirstLine(s: string) returns (next: nat)
    requires s != []
    ensures var j := FirstBreak(s);
            if j == |s| then SplitLines(s) == [s]
            else j < next <= |s| && SplitLines(s) == [s[..j]] + SplitLines(s[next..]) && Ink(s[j..next]) == []
  {
    hide IsSpace, IsBreak, Ink, FirstBreak;
    var j := FirstBreak(s);
    next := j;
    if j < |s| {
      var crlf := s[j] == '\r' && j + 1 < |s| && s[j + 1] == '\n';
      next := if crlf then j + 2 else j + 1;
      assert s[j..next] == if crlf then "\r\n" else [s[j]];
      BreakGap(s[j..next]);
    }
  }

  lemma {:induction false} LinesKeepInk(s: string)
    ensures Ink(JoinLines(SplitLines(s))) == Ink(s)
    decreases |s|
  {
    hide IsSpace, IsBreak, JoinLines, Ink, SplitLines;
    if s == [] {
      assert JoinLines(SplitLines(s)) == [] by { JoinNone(); }
    } else {
      var next := FirstLine(s);
      var j := FirstBreak(s);
      if j == |s| {
        JoinCons(s, []);
        JoinNone();
        EmptyConcat();
        assert [s] + [] == [s];
        assert Ink(s) + [] == Ink(s);
      } else {
        LinesKeepInk(s[next..]);
        JoinCons(s[..j], SplitLines(s[next..]));
        assert s == s[..j] + s[j..next] + s[next..];
        InkThree(s[..j], s[j..next], s[next..]);
        assert Ink(s[..j]) + [] == Ink(s[..j]);
      }
    }
  }

  lemma JoinNone()
    ensures JoinLines([]) == [] && SplitLines([]) == []
  {}

  /** A line boundary is whitespace. */
  lemma BreakGap(gap: string)
    requires gap == "\n\n" || gap == "\n" || (gap != [] && IsBreak(gap[0]) && (|gap| == 1 || gap == "\r\n"))
    ensures Ink(gap) == []
  {
    assert forall i :: 0 <= i < |gap| ==> IsSpace(gap[i]);
    BlankHasNoInk(gap);
  }

  lemma ConcatCons(part: string, rest: seq<string>)
    ensures Concat([part] + rest) == part + Concat(rest)
  {
    ConcatOf([part], rest);
    ConcatPush([], part);
    assert [] + [part] == [part];
  }

  lemma {:induction false} OneParagraph(s: string, part: string, rest: seq<string>, tail: string)
    requires Ink(s) == Ink(part) + Ink(tail) && Ink(Concat(rest)) == Ink(tail)
    ensures Ink(Concat([part] + rest)) == Ink(s)
    ensures part == [] ==> Ink(Concat(rest)) == Ink(s)
  {
    hide IsSpace, Concat;
    ConcatCons(part, rest);
    InkConcat(part, Concat(rest));
  }

  lemma SplitStep(s: string)
    ensures var j := FirstBlankLine(s);
            var rest := if j == |s| then [] else SplitParagraphs(s[j + 2..]);
            SplitParagraphs(s) == if Strip(s[..j]) == [] then rest else [Strip(s[..j])] + rest
  {}

  lemma {:induction false} ParagraphsKeepInk(s: string)
    ensures Ink(Concat(SplitParagraphs(s))) == Ink(s)
    ensures forall p :: p in SplitParagraphs(s) ==> p != [] && Trimmed(p)
    decreases |s|
  {
    hide IsSpace, IsBreak, Ink, Concat, Strip, Trimmed, SplitParagraphs;
    var j := FirstBlankLine(s);
    var part := Strip(s[..j]);
    StripFacts(s[..j]);
    EmptyConcat();
    SplitStep(s);
    assert Ink(part) + [] == Ink(part);
    if j == |s| {
      assert s[..j] == s;
      OneParagraph(s, part, [], []);
    } else {
      var tail := s[j + 2..];
      ParagraphsKeepInk(tail);
      BreakGap("\n\n");
      InkThree(s[..j], "\n\n", tail);
      assert s == s[..j] + "\n\n" + tail;
      OneParagraph(s, part, SplitParagraphs(tail), tail);
    }
  }

  lemma EmptyConcat()
    ensures Concat([]) == [] && Ink([]) == []
  {}

  /** The paragraphs of a document are trimmed, not empty, and hold all its ink. */
  lemma ParagraphsHoldTheText(text: string)
    ensures Ink(Concat(Paragraphs(text))) == Ink(text)
    ensures forall p :: p in Paragraphs(text) ==> p != [] && Trimmed(p)
    ensures Paragraphs(text) == [] ==> Normalized(text) == []
  {
    LinesKeepInk(text);
    StripFacts(JoinLines(SplitLines(text)));
    ParagraphsKeepInk(Normalized(text));
    if Paragraphs(text) == [] {
      NoInkMeansBlank(Normalized(text));
      StripTrimmed(Normalized(text));
    }
  }

  // ---- Every chunk is trimmed, not empty, and bounded ---------------------------------------

  lemma {:induction false} GlueTrimmed(a: string, b: string)
    requires a != [] && b != [] && Trimmed(a) && Trimmed(b)
    ensures Glue(a, b) == a + "\n\n" + b && Trimmed(Glue(a, b))
  {}

  predicate Fits(z: Sizes, c: string) { Trimmed(c) && |c| <= z.size + z.overlap + 2 }

  ghost predicate AllFit(z: Sizes, k: Packing) { Fits(z, k.current) && forall c :: c in k.chunks ==> Fits(z, c) }

  lemma NoSlices(z: Sizes, p: string)
    requires z.Valid()
    ensures Slices(z, p, |p|) == []
  {}

  lemma SliceStep(z: Sizes, p: string, start: nat)
    requires z.Valid() && start < |p|
    ensures var end := Min(|p|, start + z.size);
            Slices(z, p, start) ==
            [Strip(p[start..end])] + (if end == |p| then [] else Slices(z, p, start + z.Advance()))
  {
    hide Strip;
  }

  lemma {:induction false} SlicesFit(z: Sizes, p: string, start: nat)
    requires z.Valid() && start <= |p|
    ensures forall c :: c in Slices(z, p, start) ==> Trimmed(c) && |c| <= z.size
    decreases |p| - start
  {
    hide Strip, Trimmed, Slices;
    if start == |p| {
      assert Slices(z, p, start) == [] by { NoSlices(z, p); }
    } else {
      var end := Min(|p|, start + z.size);
      StripFacts(p[start..end]);
      SliceStep(z, p, start);
      if end < |p| { SlicesFit(z, p, start + z.Advance()); }
    }
  }

  lemma {:induction false} FeedFits(z: Sizes, k: Packing, p: string)
    requires z.Valid() && AllFit(z, k) && Trimmed(p) && (p != [] || k.current == [])
    ensures AllFit(z, Feed(z, k, p))
  {
    hide Strip, IsSpace;
    StripTrimmed(k.current);
    if |p| > z.size {
      SlicesFit(z, p, 0);
    } else {
      if k.current != [] { GlueTrimmed(k.current, p); }
      var prefix := Strip(LastChars(k.current, z.overlap));
      StripFacts(LastChars(k.current, z.overlap));
      if prefix != [] && p != [] { GlueTrimmed(prefix, p); }
    }
  }

  ghost predicate AreParagraphs(ps: seq<string>) { forall p :: p in ps ==> p != [] && Trimmed(p) }

  lemma {:induction false} PackFits(z: Sizes, ps: seq<string>)
    requires z.Valid() && AreParagraphs(ps)
    ensures AllFit(z, Pack(z, ps))
  {
    hide Fits, Trimmed, Feed;
    if ps == [] {
      assert Fits(z, []) by { EmptyFits(z); }
    } else {
      assert ps[|ps| - 1] in ps;
      PackFits(z, ps[..|ps| - 1]);
      FeedFits(z, Pack(z, ps[..|ps| - 1]), ps[|ps| - 1]);
    }
  }

  lemma EmptyFits(z: Sizes)
    ensures Fits(z, [])
  {}

  lemma {:induction false} NonEmptyMembers(chunks: seq<string>)
    ensures forall c :: c in NonEmpty(chunks) <==> c in chunks && c != []
    ensures Concat(NonEmpty(chunks)) == Concat(chunks)
  {
    if chunks != [] {
      var front, c := chunks[..|chunks| - 1], chunks[|chunks| - 1];
      NonEmptyMembers(front);
      ConcatPush(NonEmpty(front), c);
      assert Concat(front) + [] == Concat(front);
    }
  }

  /** Without a paragraph there is nothing to return. */
  lemma {:induction false} NoParagraphsNoChunks(z: Sizes, text: string)
    requires z.Valid() && Paragraphs(text) == []
    ensures Chunks(text, z) == []
  {
    ParagraphsHoldTheText(text);
    assert Pack(z, [""][..0]) == Packing([], []);
    assert Pack(z, [""]) == Packing([], []);
  }

  /** Every chunk is trimmed, not empty, and at most size + overlap + 2 long. */
  lemma {:induction false} ChunksAreBounded(z: Sizes, text: string)
    requires z.Valid()
    ensures forall c :: c in Chunks(text, z) ==> c != [] && Trimmed(c) && |c| <= z.size + z.overlap + 2
  {
    hide Trimmed, Pack, Paragraphs, Strip;
    ParagraphsHoldTheText(text);
    var ps := Paragraphs(text);
    if ps == [] {
      NoParagraphsNoChunks(z, text);
    } else {
      PackFits(z, ps);
      FinishMembers(z, Pack(z, ps));
    }
  }

  /** The chunks returned are the ones collected and the last one under way. */
  lemma {:induction false} FinishMembers(z: Sizes, k: Packing)
    requires AllFit(z, k)
    ensures forall c :: c in Finish(k) <==> c != [] && (c in k.chunks || c == k.current)
    ensures forall c :: c in Finish(k) ==> Fits(z, c)
    ensures Concat(Finish(k)) == Concat(k.chunks) + k.current
  {
    hide Trimmed, Strip;
    assert Strip(k.current) == k.current by { StripTrimmedFits(z, k.current); }
    var all := if k.current != [] then k.chunks + [k.current] else k.chunks;
    NonEmptyMembers(all);
    ConcatPush(k.chunks, k.current);
    assert Concat(k.chunks) + [] == Concat(k.chunks);
  }

  lemma StripTrimmedFits(z: Sizes, c: string)
    requires Fits(z, c)
    ensures Strip(c) == c
  {}

  // ---- A long paragraph is covered by evenly spaced slices -----------------------------------

  /** Slice `k` starts `k` advances behind the first. */
  function SliceStart(z: Sizes, start: nat, k: nat): nat
    requires z.Valid()
  {
    start + k * z.Advance()
  }

  lemma NextSliceStart(z: Sizes, start: nat, k: nat)
    requires z.Valid()
    ensures SliceStart(z, start + z.Advance(), k) == SliceStart(z, start, k + 1)
  {}

  /** Slice `k` is the text from its start on, as far as it goes. */
  predicate IsSlice(z: Sizes, p: string, start: nat, slices: seq<string>, k: nat)
    requires z.Valid() && k < |slices|
  {
    var a := SliceStart(z, start, k);
    a < |p| && slices[k] == Strip(p[a..Min(|p|, a + z.size)])
  }

  lemma NextSlice(z: Sizes, p: string, start: nat, first: string, rest: seq<string>, k: nat)
    requires z.Valid() && k < |rest| && IsSlice(z, p, start + z.Advance(), rest, k)
    ensures IsSlice(z, p, start, [first] + rest, k + 1)
  {
    hide Strip, SliceStart;
    NextSliceStart(z, start, k);
  }

  lemma FirstSlice(z: Sizes, p: string, start: nat, rest: seq<string>)
    requires z.Valid() && start < |p|
    ensures IsSlice(z, p, start, [Strip(p[start..Min(|p|, start + z.size)])] + rest, 0)
  {
    hide Strip;
  }

  /** Each slice begins one advance behind the one before it. */
  lemma {:induction false} SlicesFollow(z: Sizes, p: string, start: nat)
    requires z.Valid() && start < |p|
    ensures |Slices(z, p, start)| >= 1
    ensures forall k :: 0 <= k < |Slices(z, p, start)| ==> IsSlice(z, p, start, Slices(z, p, start), k)
    decreases |p| - start
  {
    hide Strip, Slices, IsSlice;
    var end := Min(|p|, start + z.size);
    var first, rest := Strip(p[start..end]), if end == |p| then [] else Slices(z, p, start + z.Advance());
    SliceStep(z, p, start);
    FirstSlice(z, p, start, rest);
    if end < |p| {
      SlicesFollow(z, p, start + z.Advance());
      forall k | 1 <= k < |rest| + 1 ensures IsSlice(z, p, start, [first] + rest, k) {
        NextSlice(z, p, start, first, rest, k - 1);
      }
    }
  }

  /** The last slice reaches the end, and the one before it does not. */
  lemma {:induction false} SlicesReach(z: Sizes, p: string, start: nat)
    requires z.Valid() && start < |p|
    ensures var n := |Slices(z, p, start)|;
            && n >= 1 && SliceStart(z, start, n - 1) + z.size >= |p|
            && (n >= 2 ==> SliceStart(z, start, n - 2) + z.size < |p|)
    decreases |p| - start
  {
    hide Strip, Slices, SliceStart;
    var end := Min(|p|, start + z.size);
    SliceStep(z, p, start);
    FirstSliceStart(z, start);
    if end < |p| {
      var next := start + z.Advance();
      var n := |Slices(z, p, next)|;
      SlicesReach(z, p, next);
      NextSliceStart(z, start, n - 1);
      if n >= 2 { NextSliceStart(z, start, n - 2); }
    }
  }

  /** The slices of a paragraph begin one advance apart, and their number is the least
      that covers it. */
  lemma {:induction false} SlicesAreEven(z: Sizes, p: string, start: nat)
    requires z.Valid() && start < |p|
    ensures var s := Slices(z, p, start);
            && |s| >= 1
            && (forall k :: 0 <= k < |s| ==> IsSlice(z, p, start, s, k))
            && SliceStart(z, start, |s| - 1) + z.size >= |p|
            && (|s| >= 2 ==> SliceStart(z, start, |s| - 2) + z.size < |p|)
  {
    hide Slices, IsSlice, SliceStart;
    SlicesFollow(z, p, start);
    SlicesReach(z, p, start);
  }

  lemma FirstSliceStart(z: Sizes, start: nat)
    requires z.Valid()
    ensures SliceStart(z, start, 0) == start
  {}

  /** Every position of a long paragraph lies in one of its slices. */
  lemma {:induction false} SlicesCover(z: Sizes, p: string, start: nat, i: nat) returns (a: nat, b: nat)
    requires z.Valid() && start <= i < |p|
    ensures start <= a <= i < b <= |p| && b - a <= z.size
    ensures Strip(p[a..b]) in Slices(z, p, start)
    decreases |p| - start
  {
    hide Strip;
    var end := Min(|p|, start + z.size);
    if i < end {
      a, b := start, end;
    } else {
      a, b := SlicesCover(z, p, Max(end - z.overlap, start + 1), i);
    }
  }

  // ---- Nothing is lost ----------------------------------------------------------------------

  predicate OccursAt(p: string, c: string, i: int) { 0 <= i <= |c| - |p| && c[i..i + |p|] == p }

  ghost predicate Within(p: string, c: string) { exists i :: OccursAt(p, c, i) }

  lemma WithinGlued(p: string, a: string, b: string)
    requires Within(p, a) || Within(p, b)
    ensures Within(p, a + "\n\n" + b)
  {
    var g := a + "\n\n" + b;
    if Within(p, a) {
      var i :| OccursAt(p, a, i);
      assert g[i..i + |p|] == p;
      assert OccursAt(p, g, i);
    } else {
      var i :| OccursAt(p, b, i);
      var j := |a| + 2 + i;
      assert g[j..j + |p|] == p;
      assert OccursAt(p, g, j);
    }
  }

  lemma WithinItself(p: string)
    ensures Within(p, p)
  {
    assert OccursAt(p, p, 0);
  }

  ghost predicate Kept(k: Packing, p: string) { Within(p, k.current) || exists c :: c in k.chunks && Within(p, c) }

  /** A paragraph that fits is whole in the packing after it has been fed. */
  lemma {:induction false} FeedTakes(z: Sizes, k: Packing, p: string)
    requires z.Valid() && AllFit(z, k) && p != [] && Trimmed(p) && |p| <= z.size
    ensures Kept(Feed(z, k, p), p)
  {
    hide Within, Strip, Trimmed;
    WithinItself(p);
    if k.current != [] {
      GlueTrimmedFits(z, k.current, p);
      WithinGlued(p, k.current, p);
    }
    var prefix := Strip(LastChars(k.current, z.overlap));
    StripFacts(LastChars(k.current, z.overlap));
    if prefix != [] {
      GlueTrimmed(prefix, p);
      WithinGlued(p, prefix, p);
    }
  }

  lemma GlueTrimmedFits(z: Sizes, a: string, b: string)
    requires Fits(z, a) && a != [] && b != [] && Trimmed(b)
    ensures Glue(a, b) == a + "\n\n" + b && Strip(a) == a
  {}

  /** What is whole in a packing stays whole. */
  lemma {:induction false} FeedKeeps(z: Sizes, k: Packing, p: string, q: string)
    requires z.Valid() && AllFit(z, k) && p != [] && Trimmed(p) && q != [] && Kept(k, q)
    ensures Kept(Feed(z, k, p), q)
  {
    hide Within, Strip, Trimmed, Slices;
    var next := Feed(z, k, p);
    if Within(q, k.current) {
      NotWithinEmpty(q);
      GlueTrimmedFits(z, k.current, p);
      WithinGlued(q, k.current, p);
      if next.current != Glue(k.current, p) { assert k.current in next.chunks; }
    } else {
      var c :| c in k.chunks && Within(q, c);
      assert c in next.chunks;
    }
  }

  lemma NotWithinEmpty(p: string)
    requires p != []
    ensures !Within(p, [])
  {}

  lemma {:induction false} PackKeeps(z: Sizes, ps: seq<string>, p: string)
    requires z.Valid() && AreParagraphs(ps) && p in ps && |p| <= z.size
    ensures Kept(Pack(z, ps), p)
  {
    hide Kept, Trimmed, Feed;
    var front, last := ps[..|ps| - 1], ps[|ps| - 1];
    PackFits(z, front);
    assert last in ps;
    if p == last {
      FeedTakes(z, Pack(z, front), p);
    } else {
      PackKeeps(z, front, p);
      FeedKeeps(z, Pack(z, front), last, p);
    }
  }

  /** Every paragraph no longer than the chunk size appears whole in some chunk. */
  lemma {:induction false} ShortParagraphsStayWhole(z: Sizes, text: string, p: string)
    requires z.Valid() && p in Paragraphs(text) && |p| <= z.size
    ensures exists c :: c in Chunks(text, z) && Within(p, c)
  {
    hide Within, Trimmed, Pack, Paragraphs, Fits;
    var ps := Paragraphs(text);
    ParagraphsHoldTheText(text);
    PackFits(z, ps);
    PackKeeps(z, ps, p);
    FinishMembers(z, Pack(z, ps));
    NotWithinEmpty(p);
    var k := Pack(z, ps);
    if Within(p, k.current) {
      assert k.current in Finish(k);
    } else {
      var c :| c in k.chunks && Within(p, c);
      assert c in Finish(k);
    }
  }

  lemma {:induction false} PackSlices(z: Sizes, ps: seq<string>, p: string)
    requires z.Valid() && p in ps && |p| > z.size
    ensures forall c :: c in Slices(z, p, 0) ==> c in Pack(z, ps).chunks
  {
    hide Slices, Strip, Glue;
    var front, last := ps[..|ps| - 1], ps[|ps| - 1];
    if p != last { PackSlices(z, front, p); }
  }

  /** Every character of a longer paragraph that is not whitespace is in a chunk
      that is a slice of the paragraph around it. */
  lemma {:induction false} LongParagraphsAreCovered(z: Sizes, text: string, p: string, i: nat)
    returns (a: nat, b: nat)
    requires z.Valid() && p in Paragraphs(text) && |p| > z.size
    requires i < |p| && !IsSpace(p[i])
    ensures a <= i < b <= |p| && b - a <= z.size && Strip(p[a..b]) in Chunks(text, z)
  {
    hide Trimmed, Pack, Paragraphs, Fits, Strip, Slices, IsSpace;
    var ps := Paragraphs(text);
    ParagraphsHoldTheText(text);
    PackFits(z, ps);
    a, b := SlicesCover(z, p, 0, i);
    PackSlices(z, ps, p);
    FinishMembers(z, Pack(z, ps));
    InkAtMeansNotBlank(p[a..b], i - a);
  }

  lemma {:induction false} InkAtMeansNotBlank(s: string, i: nat)
    requires i < |s| && !IsSpace(s[i])
    ensures Strip(s) != []
  {
    StripFacts(s);
    assert s == s[..i] + [s[i]] + s[i + 1..];
    InkThree(s[..i], [s[i]], s[i + 1..]);
    assert [s[i]][..0] == [];
  }

  // ---- Without overlap the ink comes out in order, once ---------------------------------------

  lemma {:induction false} SlicesKeepInk(z: Sizes, p: string, start: nat)
    requires z.Valid() && z.overlap == 0 && start <= |p|
    ensures Ink(Concat(Slices(z, p, start))) == Ink(p[start..])
    decreases |p| - start
  {
    hide Strip, Ink, IsSpace, Concat, Slices;
    EmptyConcat();
    if start == |p| {
      assert p[start..] == [];
      NoSlices(z, p);
    } else {
      var end := Min(|p|, start + z.size);
      var first, rest := Strip(p[start..end]), if end == |p| then [] else Slices(z, p, end);
      StripFacts(p[start..end]);
      SliceStep(z, p, start);
      if end < |p| { SlicesKeepInk(z, p, end); } else { assert p[end..] == []; }
      ConcatCons(first, rest);
      InkConcat(first, Concat(rest));
      assert p[start..] == p[start..end] + p[end..];
      InkConcat(p[start..end], p[end..]);
    }
  }

  function Whole(k: Packing): string { Concat(k.chunks) + k.current }

  lemma {:induction false} GlueInk(a: string, b: string)
    ensures Ink(Glue(a, b)) == Ink(a) + Ink(b)
  {
    hide IsSpace, Strip;
    StripFacts(a + "\n\n" + b);
    InkThree(a, "\n\n", b);
    BreakGap("\n\n");
    assert Ink(a) + [] == Ink(a);
  }

  lemma {:induction false} FeedInk(z: Sizes, k: Packing, p: string)
    requires z.Valid() && z.overlap == 0
    ensures Ink(Whole(Feed(z, k, p))) == Ink(Whole(k)) + Ink(p)
  {
    hide IsSpace, Strip, Ink, Concat, Slices, Glue;
    EmptyConcat();
    StripFacts(k.current);
    InkConcat(Concat(k.chunks), k.current);
    ConcatPush(k.chunks, Strip(k.current));
    InkConcat(Concat(k.chunks), Strip(k.current));
    var closed := if k.current != [] then k.chunks + [Strip(k.current)] else k.chunks;
    assert Ink(Concat(closed)) == Ink(Whole(k)) by {
      assert Concat(k.chunks) + [] == Concat(k.chunks);
    }
    var next := Feed(z, k, p);
    if |p| > z.size {
      SlicesKeepInk(z, p, 0);
      assert p[0..] == p;
      ConcatOf(closed, Slices(z, p, 0));
      InkConcat(Concat(closed), Concat(Slices(z, p, 0)));
      assert Concat(next.chunks) + [] == Concat(next.chunks);
    } else {
      GlueInk(k.current, p);
      InkConcat(Concat(k.chunks), Glue(k.current, p));
      InkConcat(Concat(k.chunks), p);
      InkConcat(Concat(k.chunks + [Strip(k.current)]), p);
      assert Concat(k.chunks) + [] == Concat(k.chunks);
    }
  }

  lemma {:induction false} PackInk(z: Sizes, ps: seq<string>)
    requires z.Valid() && z.overlap == 0
    ensures Ink(Whole(Pack(z, ps))) == Ink(Concat(ps))
  {
    hide Feed, Ink;
    if ps == [] {
      EmptyConcat();
      assert Whole(Pack(z, ps)) == Concat(ps);
    } else {
      PackInk(z, ps[..|ps| - 1]);
      FeedInk(z, Pack(z, ps[..|ps| - 1]), ps[|ps| - 1]);
      InkConcat(Concat(ps[..|ps| - 1]), ps[|ps| - 1]);
    }
  }

  /** With no overlap, the non-whitespace characters of the chunks, in order, are
      exactly those of the text. */
  lemma {:induction false} NoOverlapLosesNothing(z: Sizes, text: string)
    requires z.Valid() && z.overlap == 0
    ensures Ink(Concat(Chunks(text, z))) == Ink(text)
  {
    hide Trimmed, Pack, Paragraphs, Fits, Strip, Ink;
    ParagraphsHoldTheText(text);
    var ps := Paragraphs(text);
    if ps == [] {
      NoParagraphsNoChunks(z, text);
    } else {
      PackFits(z, ps);
      FinishMembers(z, Pack(z, ps));
      PackInk(z, ps);
    }
  }

  // ---- Which texts give no chunk -----------------------------------------------------------------

  lemma {:induction false} ParagraphsHaveInk(ps: seq<string>)
    requires AreParagraphs(ps) && ps != []
    ensures Ink(Concat(ps)) != []
  {
    hide IsSpace;
    var front, last := ps[..|ps| - 1], ps[|ps| - 1];
    assert last in ps;
    InkConcat(Concat(front), last);
    assert last == [] + [last[0]] + last[1..];
    InkThree([], [last[0]], last[1..]);
    assert [last[0]][..0] == [];
  }

  /** A text gives no chunk exactly when it is all white space, whatever the sizes. */
  lemma {:induction false} BlankTextHasNoChunks(z: Sizes, text: string)
    requires z.Valid()
    ensures Chunks(text, z) == [] <==> Ink(text) == []
  {
    hide Chunks, Paragraphs, Ink, IsSpace, Strip, Concat;
    var ps := Paragraphs(text);
    ParagraphsHoldTheText(text);
    EmptyConcat();
    if ps == [] {
      NoParagraphsNoChunks(z, text);
    } else {
      ParagraphsHaveInk(ps);
      if |ps[0]| <= z.size {
        ShortParagraphsStayWhole(z, text, ps[0]);
      } else {
        var a, b := LongParagraphsAreCovered(z, text, ps[0], 0);
      }
    }
  }

  // ---- The source's loops -----------------------------------------------------------------------

  method SliceParagraph(z: Sizes, p: string, chunks: seq<string>) returns (r: seq<string>)
    requires z.Valid()
    ensures r == chunks + Slices(z, p, 0)
  {
    hide Strip;
    r := chunks;
    var start := 0;
    while start < |p|
      invariant 0 <= start <= |p|
      invariant r + Slices(z, p, start) == chunks + Slices(z, p, 0)
      decreases |p| - start
    {
      var end := Min(|p|, start + z.size);
      ghost var rest := if end == |p| then [] else Slices(z, p, Max(end - z.overlap, start + 1));
      assert Slices(z, p, start) == [Strip(p[start..end])] + rest;
      assert r + Slices(z, p, start) == r + [Strip(p[start..end])] + rest;
      r := r + [Strip(p[start..end])];
      if end == |p| {
        assert r + [] == r;
        return;
      }
      start := Max(end - z.overlap, start + 1);
    }
    assert r + [] == r;
  }

  method ChunkText(text: string, chunkSize: int, overlap: int) returns (result: seq<string>)
    ensures result == Chunks(text, SafeSizes(chunkSize, overlap))
  {
    hide Strip, Paragraphs, Slices;
    var z := SafeSizes(chunkSize, overlap);
    var normalized := Normalized(text);
    var paragraphs := Paragraphs(text);
    if paragraphs == [] { paragraphs := [normalized]; }
    var chunks: seq<string> := [];
    var current := "";
    var i := 0;
    while i < |paragraphs|
      invariant 0 <= i <= |paragraphs|
      invariant Packing(chunks, current) == Pack(z, paragraphs[..i])
    {
      var paragraph := paragraphs[i];
      assert paragraphs[..i + 1][..i] == paragraphs[..i];
      if |paragraph| > z.size {
        if current != "" {
          chunks := chunks + [Strip(current)];
          current := "";
        }
        chunks := SliceParagraph(z, paragraph, chunks);
      } else {
        var candidate := if current != "" then Strip(current + "\n\n" + paragraph) else paragraph;
        if |candidate| <= z.size {
          current := candidate;
        } else {
          chunks := chunks + [Strip(current)];
          var prefix := if z.overlap > 0 && current != "" then Strip(LastChars(current, z.overlap)) else "";
          current := if prefix != "" then Strip(prefix + "\n\n" + paragraph) else paragraph;
        }
      }
      i := i + 1;
    }
    assert paragraphs[..i] == paragraphs;
    if current != "" { chunks := chunks + [Strip(current)]; }
    result := NonEmpty(chunks);
  }
}
