/** How `chunk_text` packs paragraphs (backend/app/knowledge/document_processing.py):
    which paragraphs come out together, where a new chunk starts, and what it
    repeats of the one before it. */
module ChunkLayout {
  import opened Text
  import opened Chunking

  // ---- Layouts --------------------------------------------------------------------------------

  /** Paragraphs `from` to `to - 1` in one chunk, or one long paragraph in slices. */
  datatype Piece = Packed(from: nat, to: nat) | Sliced(at: nat)

  function Joined(ps: seq<string>): string {
    if ps == [] then "" else if |ps| == 1 then ps[0] else Joined(ps[..|ps| - 1]) + "\n\n" + ps[|ps| - 1]
  }

  predicate InRange(ps: seq<string>, layout: seq<Piece>) {
    forall k :: 0 <= k < |layout| ==>
      match layout[k]
      case Packed(from, to) => from < to <= |ps|
      case Sliced(at) => at < |ps|
  }

  /** How many paragraphs the layout has placed. */
  function Placed(layout: seq<Piece>): nat {
    if layout == [] then 0
    else
      match layout[|layout| - 1]
      case Packed(_, to) => to
      case Sliced(at) => at + 1
  }

  predicate EndsPacked(layout: seq<Piece>) { layout != [] && layout[|layout| - 1].Packed? }

  /** What a new chunk repeats of the one before it: its last characters, stripped. */
  function Repeated(z: Sizes, chunk: string): string {
    if z.overlap == 0 || chunk == "" then ""
    else Strip(if |chunk| <= z.overlap then chunk else chunk[|chunk| - z.overlap..])
  }

  /** The chunk that the last piece makes; none, if it is sliced. */
  function LastChunk(z: Sizes, ps: seq<string>, layout: seq<Piece>): string
    requires InRange(ps, layout)
  {
    if !EndsPacked(layout) then ""
    else
      var piece := layout[|layout| - 1];
      var repeated := Repeated(z, LastChunk(z, ps, layout[..|layout| - 1]));
      (if repeated == "" then "" else repeated + "\n\n") + Joined(ps[piece.from..piece.to])
  }

  function Rendered(z: Sizes, ps: seq<string>, layout: seq<Piece>): seq<string>
    requires z.Valid() && InRange(ps, layout)
  {
    if layout == [] then []
    else
      Rendered(z, ps, layout[..|layout| - 1]) +
      (if EndsPacked(layout) then [LastChunk(z, ps, layout)] else Slices(z, ps[layout[|layout| - 1].at], 0))
  }

  /** Paragraphs are placed in order; the long ones, and no others, are sliced; a
      chunk of several paragraphs is within the size, and it is left for a new one
      only if the next paragraph would not fit. */
  ghost predicate IsLayout(z: Sizes, ps: seq<string>, layout: seq<Piece>) {
    && InRange(ps, layout)
    && (layout != [] ==>
          var front, last := layout[..|layout| - 1], layout[|layout| - 1];
          && IsLayout(z, ps, front)
          && match last
             case Sliced(at) => at == Placed(front) && |ps[at]| > z.size
             case Packed(from, to) =>
               && from == Placed(front)
               && (forall k :: from <= k < to ==> |ps[k]| <= z.size)
               && (to - from >= 2 ==> |LastChunk(z, ps, layout)| <= z.size)
               && (EndsPacked(front) ==> |LastChunk(z, ps, front)| + 2 + |ps[from]| > z.size))
  }

  // ---- Packing follows every layout -----------------------------------------------------------

  /** What the packing has closed when it has followed the layout. */
  function Closed(z: Sizes, ps: seq<string>, layout: seq<Piece>): seq<string>
    requires z.Valid() && InRange(ps, layout)
  {
    Rendered(z, ps, if EndsPacked(layout) then layout[..|layout| - 1] else layout)
  }

  lemma JoinedOne(p: string)
    ensures Joined([p]) == p
  {}

  lemma JoinedMore(ps: seq<string>, from: nat, to: nat)
    requires from + 1 < to <= |ps|
    ensures Joined(ps[from..to]) == Joined(ps[from..to - 1]) + "\n\n" + ps[to - 1]
  {
    assert ps[from..to][..to - from - 1] == ps[from..to - 1];
  }

  /** The last piece without its last paragraph. */
  lemma ShorterChunk(z: Sizes, ps: seq<string>, front: seq<Piece>, from: nat, to: nat)
    requires from + 1 < to && InRange(ps, front + [Packed(from, to)])
    ensures to <= |ps| && InRange(ps, front + [Packed(from, to - 1)])
    ensures LastChunk(z, ps, front + [Packed(from, to)]) ==
            LastChunk(z, ps, front + [Packed(from, to - 1)]) + "\n\n" + ps[to - 1]
  {
    hide Joined, Repeated;
    var more, less := front + [Packed(from, to)], front + [Packed(from, to - 1)];
    assert more[..|front|] == front && less[..|front|] == front;
    assert more[|front|] == Packed(from, to);
    forall k | 0 <= k < |less|
      ensures less[k].Packed? ==> less[k].from < less[k].to <= |ps|
      ensures less[k].Sliced? ==> less[k].at < |ps|
    {
      assert k < |front| ==> less[k] == more[k];
    }
    JoinedMore(ps, from, to);
  }

  lemma ShorterLayout(z: Sizes, ps: seq<string>, front: seq<Piece>, from: nat, to: nat)
    requires from + 1 < to && IsLayout(z, ps, front + [Packed(from, to)])
    ensures IsLayout(z, ps, front + [Packed(from, to - 1)])
  {
    hide LastChunk;
    var more, less := front + [Packed(from, to)], front + [Packed(from, to - 1)];
    assert more[..|front|] == front && less[..|front|] == front;
    ShorterChunk(z, ps, front, from, to);
  }

  lemma LayoutFacts(z: Sizes, ps: seq<string>, layout: seq<Piece>)
    requires IsLayout(z, ps, layout)
    ensures InRange(ps, layout)
    ensures layout != [] ==>
            var front, last := layout[..|layout| - 1], layout[|layout| - 1];
            && IsLayout(z, ps, front) && InRange(ps, front)
            && Placed(front) < Placed(layout) <= |ps|
            && (last.Sliced? ==> last.at == Placed(front))
            && (last.Packed? ==> last.from == Placed(front))
            && (last.Packed? && last.to - last.from >= 2 ==> |LastChunk(z, ps, layout)| <= z.size)
  {
    hide LastChunk;
  }

  lemma {:induction false} PackFollows(z: Sizes, ps: seq<string>, layout: seq<Piece>)
    requires z.Valid() && AreParagraphs(ps) && IsLayout(z, ps, layout)
    ensures Placed(layout) <= |ps|
    ensures Pack(z, ps[..Placed(layout)]) == Packing(Closed(z, ps, layout), LastChunk(z, ps, layout))
    decreases |layout|, Placed(layout)
  {
    hide Slices, AllFit, AreParagraphs, Feed, Joined, LastChunk, Rendered, IsLayout, Pack, InRange;
    LayoutFacts(z, ps, layout);
    if layout == [] {
      assert ps[..0] == [];
      NothingLaidOut(z, ps);
    } else {
      var front, last := layout[..|layout| - 1], layout[|layout| - 1];
      assert layout == front + [last];
      if last.Packed? && last.from + 1 < last.to {
        var less := front + [Packed(last.from, last.to - 1)];
        ShorterLayout(z, ps, front, last.from, last.to);
        ShorterChunk(z, ps, front, last.from, last.to);
        assert less[..|front|] == front;
        PackFollows(z, ps, less);
        PackedSoFar(z, ps, last.to - 1);
        ChunkGrows(z, ps, less, ps[last.to - 1]);
      } else {
        PackFollows(z, ps, front);
        PackedSoFar(z, ps, Placed(front));
        PieceAdded(z, ps, front, last);
      }
    }
  }

  /** One more paragraph is fed to what the packing of those before it has left. */
  lemma PackedSoFar(z: Sizes, ps: seq<string>, n: nat)
    requires z.Valid() && AreParagraphs(ps) && n < |ps|
    ensures Fits(z, Pack(z, ps[..n]).current) && ps[n] in ps
    ensures Pack(z, ps[..n + 1]) == Feed(z, Pack(z, ps[..n]), ps[n])
  {
    hide Feed, Trimmed, Fits;
    assert ps[..n + 1][..n] == ps[..n];
    PackFits(z, ps[..n]);
  }

  lemma NothingLaidOut(z: Sizes, ps: seq<string>)
    requires z.Valid()
    ensures Pack(z, []) == Packing([], []) && Rendered(z, ps, []) == [] && LastChunk(z, ps, []) == ""
    ensures Closed(z, ps, []) == []
  {}

  lemma ChunkIsThere(z: Sizes, ps: seq<string>, layout: seq<Piece>)
    requires AreParagraphs(ps) && InRange(ps, layout)
    ensures EndsPacked(layout) <==> LastChunk(z, ps, layout) != ""
  {
    hide Trimmed;
    if EndsPacked(layout) {
      var piece := layout[|layout| - 1];
      forall p | p in ps[piece.from..piece.to] ensures p != [] { assert p in ps; }
      JoinedIsThere(ps[piece.from..piece.to]);
    }
  }

  lemma {:induction false} JoinedIsThere(ps: seq<string>)
    requires ps != [] && forall p :: p in ps ==> p != []
    ensures Joined(ps) != ""
  {
    assert ps[0] in ps;
  }

  /** The next paragraph joins the chunk under way. */
  lemma ChunkGrows(z: Sizes, ps: seq<string>, less: seq<Piece>, p: string)
    requires z.Valid() && AreParagraphs(ps) && InRange(ps, less) && EndsPacked(less) && p in ps
    requires Fits(z, LastChunk(z, ps, less)) && |LastChunk(z, ps, less) + "\n\n" + p| <= z.size
    ensures Feed(z, Packing(Closed(z, ps, less), LastChunk(z, ps, less)), p) ==
            Packing(Closed(z, ps, less), LastChunk(z, ps, less) + "\n\n" + p)
  {
    hide Slices, Strip, Joined, LastChunk, Rendered, Repeated, Glue, Trimmed;
    ChunkIsThere(z, ps, less);
    GlueTrimmedFits(z, LastChunk(z, ps, less), p);
  }

  /** A long paragraph closes the chunk under way and is sliced. */
  lemma {:induction false} LongPieceAdded(z: Sizes, ps: seq<string>, front: seq<Piece>, at: nat)
    requires z.Valid() && AreParagraphs(ps) && InRange(ps, front + [Sliced(at)]) && InRange(ps, front)
    requires at < |ps| && |ps[at]| > z.size
    requires Fits(z, LastChunk(z, ps, front))
    ensures Feed(z, Packing(Closed(z, ps, front), LastChunk(z, ps, front)), ps[at]) ==
            Packing(Closed(z, ps, front + [Sliced(at)]), LastChunk(z, ps, front + [Sliced(at)]))
  {
    hide Slices, Strip, Fits, Rendered, LastChunk;
    var layout, current := front + [Sliced(at)], LastChunk(z, ps, front);
    assert layout[..|front|] == front;
    ChunkIsThere(z, ps, front);
    NoChunkIfSliced(z, ps, layout);
    RenderedMore(z, ps, layout);
    StripTrimmedFits(z, current);
    if EndsPacked(front) { RenderedMore(z, ps, front); }
  }

  lemma NoChunkIfSliced(z: Sizes, ps: seq<string>, layout: seq<Piece>)
    requires InRange(ps, layout) && !EndsPacked(layout)
    ensures LastChunk(z, ps, layout) == ""
  {}

  /** The chunk that a paragraph opens, behind what it repeats of the one before. */
  lemma {:induction false} ChunkOpened(z: Sizes, ps: seq<string>, front: seq<Piece>, n: nat)
    requires n < |ps| && InRange(ps, front + [Packed(n, n + 1)]) && InRange(ps, front)
    ensures LastChunk(z, ps, front + [Packed(n, n + 1)]) ==
            (var repeated := Repeated(z, LastChunk(z, ps, front));
             if repeated == "" then ps[n] else repeated + "\n\n" + ps[n])
  {
    hide Repeated;
    var layout := front + [Packed(n, n + 1)];
    assert layout[..|front|] == front && layout[|front|] == Packed(n, n + 1);
    assert ps[n..n + 1] == [ps[n]];
    JoinedOne(ps[n]);
    assert "" + ps[n] == ps[n];
  }

  /** What a chunk left behind hands on to the next. */
  lemma {:induction false} HandedOn(z: Sizes, current: string, p: string)
    requires current != "" && p != "" && Trimmed(p)
    ensures var repeated := Repeated(z, current);
            && repeated == (if z.overlap > 0 then Strip(LastChars(current, z.overlap)) else "")
            && (repeated != "" ==> Glue(repeated, p) == repeated + "\n\n" + p)
  {
    hide Strip, Trimmed, Glue;
    StripFacts(LastChars(current, z.overlap));
    if Repeated(z, current) != "" { GlueTrimmed(Repeated(z, current), p); }
  }

  /** A short paragraph that does not fit starts the next chunk. */
  lemma {:induction false} ShortPieceAdded(z: Sizes, ps: seq<string>, front: seq<Piece>, n: nat)
    requires z.Valid() && AreParagraphs(ps) && InRange(ps, front + [Packed(n, n + 1)]) && InRange(ps, front)
    requires n < |ps| && |ps[n]| <= z.size
    requires EndsPacked(front) ==> |LastChunk(z, ps, front)| + 2 + |ps[n]| > z.size
    requires Fits(z, LastChunk(z, ps, front))
    ensures Feed(z, Packing(Closed(z, ps, front), LastChunk(z, ps, front)), ps[n]) ==
            Packing(Closed(z, ps, front + [Packed(n, n + 1)]), LastChunk(z, ps, front + [Packed(n, n + 1)]))
  {
    hide Slices, Strip, Fits, Rendered, LastChunk, Trimmed, Glue, Repeated, LastChars, InRange;
    var layout, current, p := front + [Packed(n, n + 1)], LastChunk(z, ps, front), ps[n];
    assert layout[..|front|] == front;
    assert p in ps;
    ChunkIsThere(z, ps, front);
    ChunkOpened(z, ps, front, n);
    NothingRepeated(z);
    if EndsPacked(front) {
      RenderedMore(z, ps, front);
      GlueTrimmedFits(z, current, p);
      HandedOn(z, current, p);
    }
  }

  lemma NothingRepeated(z: Sizes)
    ensures Repeated(z, "") == ""
  {}

  /** The next paragraph starts a chunk of its own, or is sliced. */
  lemma PieceAdded(z: Sizes, ps: seq<string>, front: seq<Piece>, last: Piece)
    requires z.Valid() && AreParagraphs(ps) && IsLayout(z, ps, front + [last])
    requires last.Packed? ==> last.to == last.from + 1
    requires InRange(ps, front) && Placed(front) < |ps|
    requires Fits(z, LastChunk(z, ps, front))
    ensures var layout := front + [last];
            Feed(z, Packing(Closed(z, ps, front), LastChunk(z, ps, front)), ps[Placed(front)]) ==
            Packing(Closed(z, ps, layout), LastChunk(z, ps, layout))
  {
    hide Feed, Fits, LastChunk, Rendered, Closed;
    var layout := front + [last];
    assert layout[..|front|] == front && layout[|front|] == last;
    match last
    case Sliced(at) => LongPieceAdded(z, ps, front, at);
    case Packed(from, to) => ShortPieceAdded(z, ps, front, from);
  }

  lemma RenderedMore(z: Sizes, ps: seq<string>, layout: seq<Piece>)
    requires z.Valid() && InRange(ps, layout) && layout != []
    ensures Rendered(z, ps, layout) ==
            Rendered(z, ps, layout[..|layout| - 1]) +
            (if EndsPacked(layout) then [LastChunk(z, ps, layout)] else Slices(z, ps[layout[|layout| - 1].at], 0))
  {
    hide LastChunk;
  }

  // ---- There is always a layout ---------------------------------------------------------------

  /** A piece added to a layout. */
  lemma LayoutAnd(z: Sizes, ps: seq<string>, front: seq<Piece>, last: Piece)
    requires IsLayout(z, ps, front)
    requires Placed(front) < |ps|
    requires
      var n := Placed(front);
      last == if |ps[n]| > z.size then Sliced(n) else Packed(n, n + 1)
    requires
      && last.Packed? && EndsPacked(front)
      ==>
      |LastChunk(z, ps, front)| + 2 + |ps[last.from]| > z.size
    ensures IsLayout(z, ps, front + [last]) && Placed(front + [last]) == Placed(front) + 1
  {
    hide LastChunk;
    var layout := front + [last];
    assert layout[..|front|] == front && layout[|front|] == last;
    forall k | 0 <= k < |layout|
      ensures layout[k].Packed? ==> layout[k].from < layout[k].to <= |ps|
      ensures layout[k].Sliced? ==> layout[k].at < |ps|
    {
      assert k < |front| ==> layout[k] == front[k];
    }
  }

  /** The last chunk with one more paragraph. */
  lemma {:induction false} LongerLayout(z: Sizes, ps: seq<string>, front: seq<Piece>, from: nat, to: nat)
    requires IsLayout(z, ps, front + [Packed(from, to)]) && to < |ps|
    requires |LastChunk(z, ps, front + [Packed(from, to)])| + 2 + |ps[to]| <= z.size
    ensures IsLayout(z, ps, front + [Packed(from, to + 1)])
  {
    hide LastChunk;
    var less, more := front + [Packed(from, to)], front + [Packed(from, to + 1)];
    assert more[..|front|] == front && less[..|front|] == front;
    assert less[|front|] == Packed(from, to) && more[|front|] == Packed(from, to + 1);
    forall k | 0 <= k < |more|
      ensures more[k].Packed? ==> more[k].from < more[k].to <= |ps|
      ensures more[k].Sliced? ==> more[k].at < |ps|
    {
      assert k < |front| ==> more[k] == less[k];
    }
    ShorterChunk(z, ps, front, from, to + 1);
  }

  /** The next paragraph has its place in a layout. */
  lemma {:induction false} LayoutGrows(z: Sizes, ps: seq<string>, less: seq<Piece>) returns (layout: seq<Piece>)
    requires IsLayout(z, ps, less) && Placed(less) < |ps|
    ensures IsLayout(z, ps, layout) && Placed(layout) == Placed(less) + 1
  {
    hide LastChunk, IsLayout, InRange;
    LayoutFacts(z, ps, less);
    var n := Placed(less);
    var p := ps[n];
    if |p| <= z.size && EndsPacked(less) && |LastChunk(z, ps, less)| + 2 + |p| <= z.size {
      var front, last := less[..|less| - 1], less[|less| - 1];
      assert less == front + [last] && last == Packed(last.from, n);
      LongerLayout(z, ps, front, last.from, n);
      layout := front + [Packed(last.from, n + 1)];
    } else {
      var last := if |p| > z.size then Sliced(n) else Packed(n, n + 1);
      LayoutAnd(z, ps, less, last);
      layout := less + [last];
    }
  }

  /** The first `n` paragraphs have a layout. */
  lemma {:induction false} LayoutUpTo(z: Sizes, ps: seq<string>, n: nat) returns (layout: seq<Piece>)
    requires n <= |ps|
    ensures IsLayout(z, ps, layout) && Placed(layout) == n
  {
    if n == 0 {
      layout := [];
    } else {
      hide IsLayout, Placed;
      var less := LayoutUpTo(z, ps, n - 1);
      layout := LayoutGrows(z, ps, less);
    }
  }

  // ---- The chunks of a text -------------------------------------------------------------------

  /** A layout of all the paragraphs of a text renders to its chunks. */
  lemma {:induction false} ChunksFollow(z: Sizes, text: string, layout: seq<Piece>)
    requires z.Valid() && IsLayout(z, Paragraphs(text), layout) && Placed(layout) == |Paragraphs(text)|
    ensures Chunks(text, z) == NonEmpty(Rendered(z, Paragraphs(text), layout))
  {
    hide Trimmed, Pack, Paragraphs, Strip, LastChunk, Rendered, NonEmpty, Fits, Normalized;
    var ps := Paragraphs(text);
    ParagraphsHoldTheText(text);
    if ps == [] {
      NoParagraphsNoChunks(z, text);
      NothingLaidOut(z, ps);
      assert NonEmpty([]) == [] by { NoneIsNone(); }
    } else {
      PackFollows(z, ps, layout);
      assert ps[..|ps|] == ps;
      PackFits(z, ps);
      StripTrimmedFits(z, LastChunk(z, ps, layout));
      ChunkIsThere(z, ps, layout);
      if EndsPacked(layout) { RenderedMore(z, ps, layout); }
    }
  }

  lemma NoneIsNone()
    ensures NonEmpty([]) == []
  {}

  /** The chunks of a text: its paragraphs in order, the long ones in slices, the
      short ones packed as many to a chunk as fit, every chunk that follows another
      behind what it repeats of it. */
  lemma {:induction false} ChunksAreLaidOut(z: Sizes, text: string) returns (layout: seq<Piece>)
    requires z.Valid()
    ensures IsLayout(z, Paragraphs(text), layout) && Placed(layout) == |Paragraphs(text)|
    ensures Chunks(text, z) == NonEmpty(Rendered(z, Paragraphs(text), layout))
  {
    hide Paragraphs, IsLayout;
    layout := LayoutUpTo(z, Paragraphs(text), |Paragraphs(text)|);
    ChunksFollow(z, text, layout);
  }

  lemma {:induction false} PartsOfJoined(ps: seq<string>)
    ensures forall k :: 0 <= k < |ps| ==> |ps[k]| <= |Joined(ps)|
  {
    if |ps| > 1 {
      PartsOfJoined(ps[..|ps| - 1]);
      forall k | 0 <= k < |ps| ensures |ps[k]| <= |Joined(ps)| {
        assert k < |ps| - 1 ==> ps[k] == ps[..|ps| - 1][k];
      }
    }
  }

  /** Paragraphs that fit a chunk together come out as one chunk. */
  lemma {:induction false} FitTogether(z: Sizes, text: string)
    requires z.Valid() && Paragraphs(text) != [] && |Joined(Paragraphs(text))| <= z.size
    ensures Chunks(text, z) == [Joined(Paragraphs(text))]
  {
    hide Trimmed, Paragraphs;
    var ps := Paragraphs(text);
    var layout := [Packed(0, |ps|)];
    assert layout[..0] == [] && ps[0..|ps|] == ps;
    PartsOfJoined(ps);
    var joined := Joined(ps);
    assert "" + joined == joined;
    assert LastChunk(z, ps, layout) == joined;
    assert Rendered(z, ps, layout) == [joined];
    ChunksFollow(z, text, layout);
    ParagraphsHoldTheText(text);
    JoinedIsThere(ps);
    assert [joined][..0] == [];
  }

  /** A slice from `a` on. */
  predicate SliceFrom(z: Sizes, p: string, a: int, slice: string) {
    0 <= a < |p| && slice == Strip(p[a..if a + z.size <= |p| then a + z.size else |p|])
  }

  lemma SliceStartIs(z: Sizes, k: nat)
    requires z.Valid()
    ensures SliceStart(z, 0, k) == k * (z.size - z.overlap)
  {}

  /** Slice `k` of a long paragraph begins `k` times the size less the overlap into
      it, and there are no more slices than it takes to reach the end. */
  lemma {:induction false} SlicesOverlap(z: Sizes, p: string)
    requires z.Valid() && p != ""
    ensures var s, step := Slices(z, p, 0), z.size - z.overlap;
            && |s| >= 1
            && (forall k :: 0 <= k < |s| ==> SliceFrom(z, p, k * step, s[k]))
            && (|s| - 1) * step + z.size >= |p|
            && (|s| >= 2 ==> (|s| - 2) * step + z.size < |p|)
  {
    hide Slices, Strip, SliceStart, SliceFrom;
    SlicesAreEven(z, p, 0);
    var s := Slices(z, p, 0);
    forall k | 0 <= k < |s| ensures SliceFrom(z, p, k * (z.size - z.overlap), s[k]) { SliceIs(z, p, s, k); }
    SliceStartIs(z, |s| - 1);
    if |s| >= 2 { SliceStartIs(z, |s| - 2); }
  }

  lemma {:induction false} SliceIs(z: Sizes, p: string, slices: seq<string>, k: nat)
    requires z.Valid() && k < |slices| && IsSlice(z, p, 0, slices, k)
    ensures SliceFrom(z, p, k * (z.size - z.overlap), slices[k])
  {
    hide Strip, SliceStart;
    SliceStartIs(z, k);
  }

  function Distance(a: int, b: int): nat { if a <= b then b - a else a - b }

  /** The sizes used are the nearest ones allowed: a chunk size from 200 to 4000, then
      an overlap from none to half of it. */
  lemma SizesAreNearest(chunkSize: int, overlap: int)
    ensures var z := SafeSizes(chunkSize, overlap);
            && 200 <= z.size <= 4000 && 2 * z.overlap <= z.size
            && (forall n :: 200 <= n <= 4000 ==> Distance(z.size, chunkSize) <= Distance(n, chunkSize))
            && (forall n :: 0 <= n && 2 * n <= z.size ==> Distance(z.overlap, overlap) <= Distance(n, overlap))
  {}

  // ---- Lines and paragraphs, and back ---------------------------------------------------------

  /** What ends a line. */
  predicate IsLineEnd(s: string) { s == "\r\n" || (|s| == 1 && IsBreak(s[0])) }

  predicate NoBreak(s: string) { forall i :: 0 <= i < |s| ==> !IsBreak(s[i]) }

  lemma {:induction false} BreakBehind(line: string, rest: string)
    requires NoBreak(line) && (rest == "" || IsBreak(rest[0]))
    ensures FirstBreak(line + rest) == |line|
  {
    hide IsBreak;
    if line == "" {
      assert line + rest == rest;
    } else {
      assert (line + rest)[0] == line[0];
      assert (line + rest)[1..] == line[1..] + rest;
      BreakBehind(line[1..], rest);
    }
  }

  /** A line is what stands before the first line end, whichever of the ends that is. */
  lemma {:induction false} LineIsSplit(line: string, end: string, rest: string)
    requires NoBreak(line) && IsLineEnd(end) && !(end == "\r" && rest != "" && rest[0] == '\n')
    ensures SplitLines(line + end + rest) == [line] + SplitLines(rest)
    ensures line != "" ==> SplitLines(line) == [line]
  {
    hide FirstBreak;
    var s := line + end + rest;
    assert s == line + (end + rest);
    BreakBehind(line, end + rest);
    BreakBehind(line, "");
    assert line + "" == line;
    assert s[..|line|] == line && s[|line|] == end[0];
    assert s[|line| + |end|..] == rest;
    assert |s| > |line| + 1 ==> s[|line| + 1] == (end + rest)[1];
  }

  /** Lines end in `\n` and nothing else, with no white space before it. */
  predicate Tidy(s: string) {
    forall i :: 0 <= i < |s| && IsBreak(s[i]) ==> s[i] == '\n' && (i == 0 || s[i - 1] == '\n' || !IsSpace(s[i - 1]))
  }

  lemma SliceIsTidy(s: string, a: nat, b: nat)
    requires Tidy(s) && a <= b <= |s|
    ensures Tidy(s[a..b])
  {
    hide IsBreak, IsSpace;
    var part := s[a..b];
    forall i | 0 <= i < |part| && IsBreak(part[i])
      ensures part[i] == '\n' && (i == 0 || part[i - 1] == '\n' || !IsSpace(part[i - 1]))
    {
      assert s[a + i] == part[i] && (i > 0 ==> s[a + i - 1] == part[i - 1]);
    }
  }

  lemma TidyJoin(a: string, b: string)
    requires Tidy(a) && Tidy(b) && (a == "" || a[|a| - 1] == '\n' || !IsSpace(a[|a| - 1]))
    ensures Tidy(a + b)
  {
    hide IsBreak, IsSpace;
    var s := a + b;
    forall i | 0 <= i < |s| && IsBreak(s[i])
      ensures s[i] == '\n' && (i == 0 || s[i - 1] == '\n' || !IsSpace(s[i - 1]))
    {
      if i < |a| {
        assert s[i] == a[i] && (i > 0 ==> s[i - 1] == a[i - 1]);
      } else {
        assert s[i] == b[i - |a|];
        assert i > |a| ==> s[i - 1] == b[i - |a| - 1];
        assert i == |a| && i > 0 ==> s[i - 1] == a[|a| - 1];
      }
    }
  }

  lemma FirstLineHasNoBreak(s: string)
    ensures NoBreak(s[..FirstBreak(s)])
  {
    hide IsBreak;
    if s != "" && !IsBreak(s[0]) {
      FirstLineHasNoBreak(s[1..]);
      var j := FirstBreak(s);
      forall i | 0 <= i < j ensures !IsBreak(s[i]) {
        if i > 0 {
          assert s[i] == s[1..][i - 1] == s[1..][..j - 1][i - 1];
        }
      }
    }
  }

  lemma {:induction false} RStripHasNoBreak(line: string)
    requires NoBreak(line)
    ensures NoBreak(RStrip(line)) && Tidy(RStrip(line))
    ensures RStrip(line) != "" ==> !IsSpace(RStrip(line)[|RStrip(line)| - 1])
  {
    hide IsBreak, IsSpace, RStrip;
    RStripFacts(line);
    var k :| 0 <= k <= |line| && RStrip(line) == line[..k];
  }

  lemma {:induction false} LinesAreTidy(s: string)
    ensures Tidy(JoinLines(SplitLines(s)))
    decreases |s|
  {
    hide IsBreak, IsSpace, RStrip, FirstBreak, Tidy, NoBreak;
    if s == "" {
      JoinNone();
      EmptyIsTidy();
    } else {
      var next := FirstLine(s);
      var j := FirstBreak(s);
      var line := s[..j];
      FirstLineHasNoBreak(s);
      assert s[..|s|] == s;
      RStripHasNoBreak(line);
      if j < |s| {
        LinesAreTidy(s[next..]);
        EndedIsTidy(RStrip(line));
        TidyJoin(RStrip(line) + "\n", JoinLines(SplitLines(s[next..])));
        assert ([line] + SplitLines(s[next..]))[1..] == SplitLines(s[next..]);
      }
    }
  }

  lemma EmptyIsTidy()
    ensures Tidy("")
  {}

  lemma {:induction false} EndedIsTidy(line: string)
    requires Tidy(line) && (line == "" || !IsSpace(line[|line| - 1]))
    ensures Tidy(line + "\n")
  {
    TidyJoin(line, "\n");
  }

  /** Normalized text is trimmed, its lines end in `\n` only, and no line ends in
      white space. */
  lemma {:induction false} NormalizedIsTidy(text: string)
    ensures Tidy(Normalized(text)) && Trimmed(Normalized(text))
  {
    hide IsBreak, IsSpace, Tidy, Strip, Trimmed;
    var s := JoinLines(SplitLines(text));
    LinesAreTidy(text);
    StripFacts(s);
    var i, j :| 0 <= i <= j <= |s| && Strip(s) == s[i..j];
    SliceIsTidy(s, i, j);
  }

  lemma {:induction false} TidyIsNormal(s: string)
    requires Tidy(s) && (s == "" || !IsSpace(s[|s| - 1]))
    ensures JoinLines(SplitLines(s)) == s
    decreases |s|
  {
    hide IsSpace, IsBreak, FirstBreak, Tidy, RStrip, NoBreak, SplitLines, JoinLines;
    if s == "" {
      JoinNone();
    } else {
      var j := FirstBreak(s);
      var next := FirstLine(s);
      if j == |s| {
        JoinOne(s);
        RStripped(s);
      } else {
        TidyNext(s);
        TidyIsNormal(s[j + 1..]);
        JoinMore(s[..j], SplitLines(s[j + 1..]));
        assert s == s[..j] + "\n" + s[j + 1..];
      }
    }
  }

  lemma JoinOne(line: string)
    ensures JoinLines([line]) == RStrip(line)
  {}

  lemma JoinMore(line: string, lines: seq<string>)
    requires lines != []
    ensures JoinLines([line] + lines) == RStrip(line) + "\n" + JoinLines(lines)
  {
    assert ([line] + lines)[1..] == lines;
  }

  lemma RStripped(s: string)
    requires s == "" || !IsSpace(s[|s| - 1])
    ensures RStrip(s) == s
  {}

  /** The first line of a tidy text, and what is behind it. */
  lemma {:induction false} TidyNext(s: string)
    requires Tidy(s) && FirstBreak(s) < |s| && !IsSpace(s[|s| - 1])
    ensures var j := FirstBreak(s);
            && j + 1 < |s| && s[j] == '\n' && RStrip(s[..j]) == s[..j] && Tidy(s[j + 1..])
            && SplitLines(s) == [s[..j]] + SplitLines(s[j + 1..]) && SplitLines(s[j + 1..]) != []
  {
    hide FirstBreak, RStrip;
    var j := FirstBreak(s);
    FirstLineHasNoBreak(s);
    if j > 0 {
      assert s[..j][j - 1] == s[j - 1];
      assert s[j - 1] != '\n';
    }
    RStripped(s[..j]);
    SliceIsTidy(s, j + 1, |s|);
    assert s[j + 1..|s|] == s[j + 1..];
    assert s == s[..j] + "\n" + s[j + 1..];
    LineIsSplit(s[..j], "\n", s[j + 1..]);
  }

  /** A paragraph as it stands in a normalized text. */
  predicate IsPlain(p: string) { p != "" && Trimmed(p) && Tidy(p) && NoBlankLine(p) }

  predicate NoBlankLine(p: string) { forall i :: 0 < i < |p| ==> !(p[i - 1] == '\n' && p[i] == '\n') }

  lemma {:induction false} JoinedFront(ps: seq<string>)
    requires |ps| >= 2
    ensures Joined(ps) == ps[0] + "\n\n" + Joined(ps[1..])
  {
    var front := ps[..|ps| - 1];
    if |ps| == 2 {
      assert ps[1..] == [ps[1]] && front == [ps[0]];
    } else {
      JoinedFront(front);
      assert front[1..] == ps[1..][..|ps| - 2];
    }
  }

  lemma {:induction false} BlankLineBehind(p: string, rest: string)
    requires p == "" || p[|p| - 1] != '\n'
    requires NoBlankLine(p)
    ensures FirstBlankLine(p + "\n\n" + rest) == |p| && FirstBlankLine(p) == |p|
  {
    var s := p + "\n\n" + rest;
    if p != "" {
      assert s[1..] == p[1..] + "\n\n" + rest;
      assert s[0] == p[0] && (|p| > 1 ==> s[1] == p[1]);
      assert !(p[0] == '\n' && |p| > 1 && p[1] == '\n');
      forall i | 0 < i < |p[1..]| ensures !(p[1..][i - 1] == '\n' && p[1..][i] == '\n') {
        assert p[1..][i - 1] == p[i] && p[1..][i] == p[i + 1];
      }
      BlankLineBehind(p[1..], rest);
    }
  }

  lemma {:induction false} SplitJoined(ps: seq<string>)
    requires forall p :: p in ps ==> IsPlain(p)
    ensures SplitParagraphs(Joined(ps)) == ps
  {
    hide Tidy, Strip, FirstBlankLine;
    if ps == [] {
      NothingToSplit();
    } else {
      var p, rest := ps[0], Joined(ps[1..]);
      var s := Joined(ps);
      assert p in ps && !IsSpace(p[|p| - 1]);
      BlankLineBehind(p, rest);
      StripTrimmed(p);
      assert ps == [p] + ps[1..];
      if |ps| == 1 {
        assert s[..|p|] == p;
      } else {
        JoinedFront(ps);
        assert s == p + "\n\n" + rest;
        assert s[..|p|] == p && s[|p| + 2..] == rest;
        SplitJoined(ps[1..]);
      }
      SplitStep(s);
    }
  }

  lemma NothingToSplit()
    ensures SplitParagraphs("") == []
  {}

  lemma {:induction false} JoinedIsTidy(ps: seq<string>)
    requires forall p :: p in ps ==> IsPlain(p)
    ensures Tidy(Joined(ps)) && Trimmed(Joined(ps))
    ensures ps != [] ==> Joined(ps) != ""
  {
    hide Tidy, IsSpace;
    EmptyIsTidy();
    if ps != [] {
      var front, p := ps[..|ps| - 1], ps[|ps| - 1];
      assert p in ps;
      if |ps| > 1 {
        JoinedIsTidy(front);
        EndedIsTidy(Joined(front));
        EndedIsTidyStill(Joined(front));
        TidyJoin(Joined(front) + "\n\n", p);
      }
    }
  }

  lemma {:induction false} EndedIsTidyStill(line: string)
    requires Tidy(line + "\n")
    ensures Tidy(line + "\n\n")
  {
    assert line + "\n\n" == line + "\n" + "\n";
    TidyJoin(line + "\n", "\n");
  }

  /** Paragraphs without a blank line inside, put one blank line apart, are the
      paragraphs found. */
  lemma {:induction false} ParagraphsRoundTrip(ps: seq<string>)
    requires forall p :: p in ps ==> IsPlain(p)
    ensures Paragraphs(Joined(ps)) == ps
  {
    hide IsPlain, Tidy, Strip, SplitParagraphs, JoinLines, SplitLines, IsSpace;
    JoinedIsTidy(ps);
    TidyIsNormal(Joined(ps));
    StripTrimmed(Joined(ps));
    SplitJoined(ps);
  }

  /** No paragraph that is found has a blank line inside. */
  lemma {:induction false} ParagraphsArePlain(text: string)
    ensures forall p :: p in Paragraphs(text) ==> IsPlain(p)
  {
    hide IsPlain;
    NormalizedIsTidy(text);
    PartsArePlain(Normalized(text));
  }

  lemma {:induction false} BeforeBlankLine(s: string)
    ensures NoBlankLine(s[..FirstBlankLine(s)])
  {
    var j := FirstBlankLine(s);
    if s != "" && j > 0 {
      BeforeBlankLine(s[1..]);
      assert s[1..][..j - 1] == s[..j][1..];
      forall i | 0 < i < j ensures !(s[i - 1] == '\n' && s[i] == '\n') {
        if i > 1 { assert s[i] == s[..j][1..][i - 1] && s[i - 1] == s[..j][1..][i - 2]; }
      }
    }
  }

  lemma {:induction false} PartsArePlain(s: string)
    requires Tidy(s)
    ensures forall p :: p in SplitParagraphs(s) ==> IsPlain(p)
    decreases |s|
  {
    hide Tidy, Strip, IsPlain, FirstBlankLine, SplitParagraphs;
    var j := FirstBlankLine(s);
    SplitStep(s);
    FirstPartIsPlain(s);
    if j < |s| {
      SliceIsTidy(s, j + 2, |s|);
      assert s[j + 2..|s|] == s[j + 2..];
      PartsArePlain(s[j + 2..]);
    }
  }

  lemma SliceHasNoBlankLine(s: string, a: nat, b: nat)
    requires NoBlankLine(s) && a <= b <= |s|
    ensures NoBlankLine(s[a..b])
  {
    var part := s[a..b];
    forall i | 0 < i < |part| ensures !(part[i - 1] == '\n' && part[i] == '\n') {
      assert part[i] == s[a + i] && part[i - 1] == s[a + i - 1];
    }
  }

  lemma {:induction false} FirstPartIsPlain(s: string)
    requires Tidy(s)
    ensures var part := Strip(s[..FirstBlankLine(s)]); part != "" ==> IsPlain(part)
  {
    hide Tidy, Strip, Trimmed, NoBlankLine, FirstBlankLine;
    var front := s[..FirstBlankLine(s)];
    BeforeBlankLine(s);
    SliceIsTidy(s, 0, |front|);
    assert s[0..|front|] == front;
    StripFacts(front);
    var a, b :| 0 <= a <= b <= |front| && Strip(front) == front[a..b];
    SliceIsTidy(front, a, b);
    SliceHasNoBlankLine(front, a, b);
  }
}
