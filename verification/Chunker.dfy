/**
 The text chunker of knowledge ingestion: a greedy packer over paragraphs, with
 fixed-size slices for paragraphs that are too long, and the index that keeps an
 article's chunks. A line break is "\n" and characters are code units.
 */
module Chunker {
  import opened Common

  const BREAK := "\n\n"

  // ---- Paragraphs ---------------------------------------------------------------

  /** `text.Split("\n\n")`: leftmost breaks first, never overlapping. */
  function SplitBreaks(s: string): (parts: seq<string>)
    ensures |parts| >= 1
  {
    if s == "" then [""]
    else if BREAK <= s then [""] + SplitBreaks(s[2..])
    else
      var rest := SplitBreaks(s[1..]);
      [[s[0]] + rest[0]] + rest[1..]
  }

  function TrimStart(s: string): string {
    if s == "" then "" else if IsWhite(s[0]) then TrimStart(s[1..]) else s
  }

  function TrimEnd(s: string): string {
    if s == "" then "" else if IsWhite(s[|s| - 1]) then TrimEnd(s[..|s| - 1]) else s
  }

  function Trim(s: string): string { TrimEnd(TrimStart(s)) }

  /** `RemoveEmptyEntries | TrimEntries`: trim first, then drop what is empty. */
  function TrimmedNonEmpty(parts: seq<string>): seq<string> {
    if parts == [] then []
    else (if Trim(parts[0]) == "" then [] else [Trim(parts[0])]) + TrimmedNonEmpty(parts[1..])
  }

  function Paragraphs(text: string): seq<string> {
    TrimmedNonEmpty(SplitBreaks(text))
  }

  predicate NoBreak(s: string) {
    forall i :: 0 <= i < |s| - 1 ==> !(s[i] == '\n' && s[i + 1] == '\n')
  }

  /** What a paragraph looks like: nonempty, no blank line inside, no white space at its ends. */
  predicate IsParagraph(p: string) {
    p != "" && NoBreak(p) && !IsWhite(p[0]) && !IsWhite(p[|p| - 1])
  }

  // ---- The packer -----------------------------------------------------------------

  function Join(group: seq<string>): string {
    if group == [] then ""
    else if |group| == 1 then group[0]
    else Join(group[..|group| - 1]) + BREAK + group[|group| - 1]
  }

  function Slices(p: string, maxChars: nat): seq<string>
    requires maxChars >= 1
  {
    if |p| <= maxChars then (if p == "" then [] else [p]) else [p[..maxChars]] + Slices(p[maxChars..], maxChars)
  }

  /** A stretch of output: paragraphs packed into one chunk, or one long paragraph cut into slices. */
  datatype Block = Packed(group: seq<string>) | Sliced(paragraph: string)

  function Render(b: Block, maxChars: nat): seq<string>
    requires maxChars >= 1
  {
    match b
    case Packed(group) => [Join(group)]
    case Sliced(p) => Slices(p, maxChars)
  }

  function RenderAll(blocks: seq<Block>, maxChars: nat): seq<string>
    requires maxChars >= 1
  {
    if blocks == [] then [] else Render(blocks[0], maxChars) + RenderAll(blocks[1..], maxChars)
  }

  predicate Overflows(current: seq<string>, p: string, maxChars: nat) {
    current != [] && |Join(current)| + |p| + 2 > maxChars
  }

  /** The open group as a block, if paragraph `p` closes it. */
  function Flushed(current: seq<string>, p: string, maxChars: nat): seq<Block> {
    if Overflows(current, p, maxChars) then [Packed(current)] else []
  }

  /** The group still open when paragraph `p` is taken up. */
  function Kept(current: seq<string>, p: string, maxChars: nat): seq<string> {
    if Overflows(current, p, maxChars) then [] else current
  }

  /** The blocks that reaching paragraph `p` closes. */
  function Emitted(current: seq<string>, p: string, maxChars: nat): seq<Block> {
    Flushed(current, p, maxChars) + if |p| > maxChars then [Sliced(p)] else []
  }

  /** The group left open after paragraph `p`. */
  function NextGroup(current: seq<string>, p: string, maxChars: nat): seq<string> {
    var kept := Kept(current, p, maxChars);
    if |p| > maxChars then kept else kept + [p]
  }

  /** The blocks still to come while `current` is being packed. */
  function Pack(current: seq<string>, ps: seq<string>, maxChars: nat): seq<Block>
    decreases |ps|
  {
    if ps == [] then (if current == [] then [] else [Packed(current)])
    else Emitted(current, ps[0], maxChars) + Pack(NextGroup(current, ps[0], maxChars), ps[1..], maxChars)
  }

  method ChunkText(text: string, maxChars: nat) returns (chunks: seq<string>)
    requires maxChars >= 1
    ensures chunks == RenderAll(Pack([], Paragraphs(text), maxChars), maxChars)
    ensures chunks == [] <==> AllWhite(text)
  {
    var paragraphs := Paragraphs(text);
    ParagraphsAreParagraphs(text);
    chunks := [];
    var current := "";
    ghost var group: seq<string>, target := [], RenderAll(Pack([], paragraphs, maxChars), maxChars);
    var i := 0;
    while i < |paragraphs|
      invariant 0 <= i <= |paragraphs|
      invariant current == Join(group)
      invariant forall p :: p in group ==> IsParagraph(p)
      invariant chunks + RenderAll(Pack(group, paragraphs[i..], maxChars), maxChars) == target
    {
      PackStep(chunks, group, paragraphs, i, maxChars);
      NextGroupParagraphs(group, paragraphs[i], maxChars);
      chunks, current := PackParagraph(chunks, current, paragraphs[i], maxChars, group);
      group := NextGroup(group, paragraphs[i], maxChars);
      i := i + 1;
    }
    JoinEmpty(group);
    RenderSingle(Packed(group), maxChars);
    assert paragraphs[i..] == [];
    if |current| > 0 {
      TrimJoin(group);
      chunks := chunks + [Trim(current)];
    }
    assert chunks == target;
    NothingToPack(text, maxChars);
    if chunks == [] && !AllWhite(text) {
      chunks := [text];
    }
  }

  lemma PackStep(chunks: seq<string>, group: seq<string>, ps: seq<string>, i: nat, maxChars: nat)
    requires maxChars >= 1 && i < |ps|
    ensures chunks + RenderAll(Pack(group, ps[i..], maxChars), maxChars)
            == chunks + RenderAll(Emitted(group, ps[i], maxChars), maxChars)
               + RenderAll(Pack(NextGroup(group, ps[i], maxChars), ps[i + 1..], maxChars), maxChars)
  {
    var next := Pack(NextGroup(group, ps[i], maxChars), ps[i + 1..], maxChars);
    assert ps[i..][0] == ps[i] && ps[i..][1..] == ps[i + 1..];
    RenderAppend(Emitted(group, ps[i], maxChars), next, maxChars);
    AppendAssociates(chunks, RenderAll(Emitted(group, ps[i], maxChars), maxChars), RenderAll(next, maxChars));
  }

  /** The first half of the loop body: the open chunk is stored if the paragraph no longer fits. */
  method Flush(chunks: seq<string>, current: string, p: string, maxChars: nat, ghost group: seq<string>)
      returns (chunks': seq<string>, current': string)
    requires maxChars >= 1
    requires current == Join(group) && forall q :: q in group ==> IsParagraph(q)
    ensures chunks' == chunks + RenderAll(Flushed(group, p, maxChars), maxChars)
    ensures current' == Join(Kept(group, p, maxChars))
  {
    JoinEmpty(group);
    chunks', current' := chunks, current;
    if |current| + |p| + 2 > maxChars && |current| > 0 {
      TrimJoin(group);
      RenderSingle(Packed(group), maxChars);
      chunks' := chunks + [Trim(current)];
      current' := "";
    }
  }

  /** The loop body: one paragraph against the open chunk. */
  method PackParagraph(chunks: seq<string>, current: string, p: string, maxChars: nat, ghost group: seq<string>)
      returns (chunks': seq<string>, current': string)
    requires maxChars >= 1
    requires current == Join(group) && forall q :: q in group ==> IsParagraph(q)
    ensures chunks' == chunks + RenderAll(Emitted(group, p, maxChars), maxChars)
    ensures current' == Join(NextGroup(group, p, maxChars))
  {
    ghost var kept := Kept(group, p, maxChars);
    EmittedRenders(chunks, group, p, maxChars);
    chunks', current' := Flush(chunks, current, p, maxChars, group);
    if |p| > maxChars {
      var slices := SliceParagraph(p, maxChars);
      chunks' := chunks' + slices;
    } else {
      JoinAppended(kept, p);
      current' := Appended(current', p);
    }
  }

  /** The last branch: a paragraph that is short enough joins the open chunk. */
  function Appended(current: string, p: string): string { if |current| > 0 then current + BREAK + p else p }

  lemma JoinAppended(kept: seq<string>, p: string)
    requires forall q :: q in kept ==> IsParagraph(q)
    ensures Join(kept + [p]) == Appended(Join(kept), p)
  {
    JoinEmpty(kept);
    JoinLast(kept, p);
  }

  lemma EmittedRenders(chunks: seq<string>, current: seq<string>, p: string, maxChars: nat)
    requires maxChars >= 1
    ensures chunks + RenderAll(Emitted(current, p, maxChars), maxChars)
            == chunks + RenderAll(Flushed(current, p, maxChars), maxChars)
               + if |p| > maxChars then Slices(p, maxChars) else []
  {
    var flushed := Flushed(current, p, maxChars);
    if |p| > maxChars {
      RenderSingle(Sliced(p), maxChars);
      RenderAppend(flushed, [Sliced(p)], maxChars);
      AppendAssociates(chunks, RenderAll(flushed, maxChars), Slices(p, maxChars));
    } else {
      assert flushed + [] == flushed;
    }
  }

  /** The slices from position `i` on; the loop's counter may run past the end. */
  function SlicesFrom(p: string, i: nat, maxChars: nat): seq<string>
    requires maxChars >= 1
  {
    if i < |p| then Slices(p[i..], maxChars) else []
  }

  function SliceAt(p: string, i: nat, maxChars: nat): string
    requires i < |p|
  {
    p[i..i + (if maxChars < |p| - i then maxChars else |p| - i)]
  }

  lemma SliceStep(p: string, i: nat, maxChars: nat)
    requires i < |p| && maxChars >= 1
    ensures SlicesFrom(p, i, maxChars) == [SliceAt(p, i, maxChars)] + SlicesFrom(p, i + maxChars, maxChars)
  {
    if i + maxChars < |p| {
      assert p[i..][..maxChars] == p[i..i + maxChars] && p[i..][maxChars..] == p[i + maxChars..];
    } else {
      assert SliceAt(p, i, maxChars) == p[i..];
    }
  }

  /** The inner loop over a paragraph that is too long. */
  method SliceParagraph(p: string, maxChars: nat) returns (slices: seq<string>)
    requires maxChars >= 1
    ensures slices == Slices(p, maxChars)
  {
    slices := [];
    var i := 0;
    assert p[0..] == p;
    while i < |p|
      invariant slices + SlicesFrom(p, i, maxChars) == Slices(p, maxChars)
    {
      SliceStep(p, i, maxChars);
      AppendAssociates(slices, [SliceAt(p, i, maxChars)], SlicesFrom(p, i + maxChars, maxChars));
      slices := slices + [SliceAt(p, i, maxChars)];
      i := i + maxChars;
    }
  }

  lemma RenderAppend(a: seq<Block>, b: seq<Block>, maxChars: nat)
    requires maxChars >= 1
    ensures RenderAll(a + b, maxChars) == RenderAll(a, maxChars) + RenderAll(b, maxChars)
  {
    if a == [] {
      assert a + b == b;
    } else {
      assert (a + b)[1..] == a[1..] + b;
      RenderAppend(a[1..], b, maxChars);
    }
  }

  lemma RenderSingle(b: Block, maxChars: nat)
    requires maxChars >= 1
    ensures RenderAll([b], maxChars) == Render(b, maxChars)
  {
    assert [b][1..] == [];
  }

  // ---- Joining and trimming ---------------------------------------------------------

  lemma JoinLast(group: seq<string>, p: string)
    ensures Join(group + [p]) == if group == [] then p else Join(group) + BREAK + p
  {
    assert (group + [p])[..|group|] == group;
  }

  lemma {:induction false} JoinFirst(group: seq<string>)
    requires |group| >= 2
    ensures Join(group) == group[0] + BREAK + Join(group[1..])
  {
    var n := |group| - 1;
    assert Join(group) == Join(group[..n]) + BREAK + group[n];
    if n == 1 {
      assert group[..1] == [group[0]] && group[1..] == [group[1]];
    } else {
      JoinFirst(group[..n]);
      assert group[..n][1..] == group[1..][..n - 1];
      assert Join(group[1..]) == Join(group[1..][..n - 1]) + BREAK + group[n];
    }
  }

  lemma {:induction false} JoinEnds(group: seq<string>)
    requires group != [] && forall p :: p in group ==> IsParagraph(p)
    ensures var s := Join(group); s != "" && !IsWhite(s[0]) && !IsWhite(s[|s| - 1])
  {
    assert group[|group| - 1] in group;
    if |group| > 1 {
      var init := group[..|group| - 1];
      assert forall p :: p in init ==> p in group;
      JoinEnds(init);
    }
  }

  lemma JoinEmpty(group: seq<string>)
    requires forall p :: p in group ==> IsParagraph(p)
    ensures Join(group) == "" <==> group == []
  {
    if group != [] { JoinEnds(group); }
  }

  lemma TrimKeeps(s: string)
    requires s != "" && !IsWhite(s[0]) && !IsWhite(s[|s| - 1])
    ensures Trim(s) == s
  {
  }

  /** Trimming a finished chunk changes nothing. */
  lemma TrimJoin(group: seq<string>)
    requires group != [] && forall p :: p in group ==> IsParagraph(p)
    ensures Trim(Join(group)) == Join(group)
  {
    JoinEnds(group);
    TrimKeeps(Join(group));
  }

  lemma {:induction false} TrimStartSuffix(s: string) returns (k: nat)
    ensures k <= |s| && TrimStart(s) == s[k..]
    ensures forall i :: 0 <= i < k ==> IsWhite(s[i])
    ensures k < |s| ==> !IsWhite(s[k])
  {
    k := 0;
    if s != "" && IsWhite(s[0]) {
      var j := TrimStartSuffix(s[1..]);
      k := j + 1;
      assert forall i :: 1 <= i < k ==> s[i] == s[1..][i - 1];
    }
  }

  lemma {:induction false} TrimEndPrefix(s: string) returns (k: nat)
    ensures k <= |s| && TrimEnd(s) == s[..k]
    ensures forall i :: k <= i < |s| ==> IsWhite(s[i])
    ensures k > 0 ==> !IsWhite(s[k - 1])
  {
    k := |s|;
    if s != "" && IsWhite(s[|s| - 1]) {
      k := TrimEndPrefix(s[..|s| - 1]);
    }
  }

  /** Trimming cuts white space off both ends and nothing else. */
  lemma TrimIsSlice(s: string) returns (from: nat, to: nat)
    ensures from <= to <= |s| && Trim(s) == s[from..to]
    ensures forall i :: 0 <= i < |s| && !(from <= i < to) ==> IsWhite(s[i])
    ensures from < to ==> !IsWhite(s[from]) && !IsWhite(s[to - 1])
  {
    from := TrimStartSuffix(s);
    var t := s[from..];
    var m := TrimEndPrefix(t);
    to := from + m;
    assert t[..m] == s[from..to];
    assert forall i :: from <= i < |s| ==> s[i] == t[i - from];
  }

  lemma TrimEmptyIff(s: string)
    ensures Trim(s) == "" <==> AllWhite(s)
  {
    var from, to := TrimIsSlice(s);
  }

  /**
   A trimmed piece without blank lines is a paragraph unless it is empty, and it is empty exactly for white pieces.
   */
  lemma TrimOfPiece(s: string)
    requires NoBreak(s)
    ensures Trim(s) != "" ==> IsParagraph(Trim(s))
    ensures Trim(s) == "" <==> AllWhite(s)
  {
    var from, to := TrimIsSlice(s);
    var t := Trim(s);
    if from < to {
      assert forall i :: 0 <= i < |t| ==> t[i] == s[from + i];
    }
  }

  // ---- Splitting -----------------------------------------------------------------------

  lemma {:induction false} FirstPartIsPrefix(s: string)
    ensures SplitBreaks(s)[0] <= s
  {
    if s != "" && !(BREAK <= s) {
      FirstPartIsPrefix(s[1..]);
      assert s == [s[0]] + s[1..];
    }
  }

  lemma {:induction false} PartsHaveNoBreak(s: string)
    ensures forall part :: part in SplitBreaks(s) ==> NoBreak(part)
  {
    if s == "" {
    } else if BREAK <= s {
      PartsHaveNoBreak(s[2..]);
    } else {
      PartsHaveNoBreak(s[1..]);
      FirstPartIsPrefix(s[1..]);
      var rest := SplitBreaks(s[1..]);
      NoBreakCons(s[0], s[1..], rest[0]);
      assert SplitBreaks(s) == [[s[0]] + rest[0]] + rest[1..];
      assert s == [s[0]] + s[1..];
    }
  }

  lemma NoBreakCons(c: char, s: string, first: string)
    requires NoBreak(first) && first <= s && !(BREAK <= [c] + s)
    ensures NoBreak([c] + first)
  {
    var r := [c] + first;
    forall i | 0 <= i < |r| - 1
      ensures !(r[i] == '\n' && r[i + 1] == '\n')
    {
      if i == 0 {
        assert ([c] + s)[0] == c && ([c] + s)[1] == first[0];
      } else {
        assert r[i] == first[i - 1] && r[i + 1] == first[i];
      }
    }
  }

  lemma WhiteCons(c: char, s: string)
    ensures AllWhite([c] + s) <==> IsWhite(c) && AllWhite(s)
  {
    var r := [c] + s;
    assert forall i :: 0 <= i < |s| ==> r[i + 1] == s[i];
    assert r[0] == c;
  }

  predicate AllPartsWhite(parts: seq<string>) {
    forall part :: part in parts ==> AllWhite(part)
  }

  lemma AllPartsCons(first: string, rest: seq<string>)
    ensures AllPartsWhite([first] + rest) <==> AllWhite(first) && AllPartsWhite(rest)
  {
    assert first in [first] + rest;
    assert forall part :: part in rest ==> part in [first] + rest;
  }

  /** A text is white exactly when all its parts are: the breaks themselves are white. */
  lemma {:induction false} WhiteParts(s: string)
    ensures AllWhite(s) <==> AllPartsWhite(SplitBreaks(s))
  {
    if s == "" {
      assert AllWhite("");
    } else if BREAK <= s {
      WhiteParts(s[2..]);
      WhiteCons(s[0], s[1..]);
      WhiteCons(s[1], s[2..]);
      assert s == [s[0]] + s[1..] && s[1..] == [s[1]] + s[2..];
      assert s[0] == '\n' && s[1] == '\n' && IsWhite('\n');
      AllPartsCons("", SplitBreaks(s[2..]));
    } else {
      WhiteParts(s[1..]);
      var rest := SplitBreaks(s[1..]);
      WhiteCons(s[0], s[1..]);
      WhiteCons(s[0], rest[0]);
      assert s == [s[0]] + s[1..];
      AllPartsCons(rest[0], rest[1..]);
      assert rest == [rest[0]] + rest[1..];
      AllPartsCons([s[0]] + rest[0], rest[1..]);
    }
  }

  lemma {:induction false} TrimmedAreParagraphs(parts: seq<string>)
    requires forall part :: part in parts ==> NoBreak(part)
    ensures forall p :: p in TrimmedNonEmpty(parts) ==> IsParagraph(p)
    ensures TrimmedNonEmpty(parts) == [] <==> AllPartsWhite(parts)
  {
    if parts != [] {
      TrimOfPiece(parts[0]);
      TrimmedAreParagraphs(parts[1..]);
      AllPartsCons(parts[0], parts[1..]);
      assert parts == [parts[0]] + parts[1..];
    }
  }

  lemma ParagraphsAreParagraphs(text: string)
    ensures forall p :: p in Paragraphs(text) ==> IsParagraph(p)
    ensures Paragraphs(text) == [] <==> AllWhite(text)
  {
    PartsHaveNoBreak(text);
    WhiteParts(text);
    TrimmedAreParagraphs(SplitBreaks(text));
  }

  /** Nothing is packed exactly when the text is white, so the whole-text fallback is never taken. */
  lemma NothingToPack(text: string, maxChars: nat)
    requires maxChars >= 1
    ensures RenderAll(Pack([], Paragraphs(text), maxChars), maxChars) == [] <==> AllWhite(text)
  {
    ParagraphsAreParagraphs(text);
    SomethingPacked([], Paragraphs(text), maxChars);
  }

  lemma {:induction false} SomethingPacked(current: seq<string>, ps: seq<string>, maxChars: nat)
    requires maxChars >= 1
    ensures RenderAll(Pack(current, ps, maxChars), maxChars) == [] <==> current == [] && ps == []
    decreases |ps|
  {
    if ps == [] {
      RenderSingle(Packed(current), maxChars);
    } else {
      var p, next := ps[0], NextGroup(current, ps[0], maxChars);
      RenderAppend(Emitted(current, p, maxChars), Pack(next, ps[1..], maxChars), maxChars);
      if |p| > maxChars {
        RenderAppend(if Overflows(current, p, maxChars) then [Packed(current)] else [], [Sliced(p)], maxChars);
        RenderSingle(Sliced(p), maxChars);
      } else {
        SomethingPacked(next, ps[1..], maxChars);
      }
    }
  }

  lemma {:induction false} SplitNoBreak(p: string)
    requires NoBreak(p)
    ensures SplitBreaks(p) == [p]
  {
    if p != "" {
      SplitNoBreak(p[1..]);
      assert p == [p[0]] + p[1..];
    }
  }

  lemma {:induction false} SplitAtBreak(p: string, rest: string)
    requires NoBreak(p) && (p == "" || p[|p| - 1] != '\n')
    ensures SplitBreaks(p + BREAK + rest) == [p] + SplitBreaks(rest)
  {
    var s := p + BREAK + rest;
    if p == "" {
      assert s[2..] == rest;
    } else {
      assert s[1..] == p[1..] + BREAK + rest;
      SplitAtBreak(p[1..], rest);
      assert p == [p[0]] + p[1..];
      assert !(BREAK <= s) by {
        if |p| == 1 { assert s[0] == p[0] != '\n'; } else { assert s[0] == p[0] && s[1] == p[1]; }
      }
    }
  }

  lemma {:induction false} SplitOfJoin(group: seq<string>)
    requires group != [] && forall p :: p in group ==> IsParagraph(p)
    ensures SplitBreaks(Join(group)) == group
  {
    var p := group[0];
    assert IsParagraph(p);
    if |group| == 1 {
      SplitNoBreak(p);
    } else {
      JoinFirst(group);
      assert IsWhite('\n');
      SplitAtBreak(p, Join(group[1..]));
      SplitOfJoin(group[1..]);
    }
  }

  lemma {:induction false} TrimmedUnchanged(group: seq<string>)
    requires forall p :: p in group ==> IsParagraph(p)
    ensures TrimmedNonEmpty(group) == group
  {
    if group != [] {
      assert IsParagraph(group[0]);
      TrimKeeps(group[0]);
      TrimmedUnchanged(group[1..]);
    }
  }

  // ---- What the chunks are ---------------------------------------------------------------

  function Concat(parts: seq<string>): string {
    if parts == [] then "" else parts[0] + Concat(parts[1..])
  }

  /** The paragraphs read back from a block's chunks: split a packed chunk, join the slices of a long paragraph. */
  function ReadBack(b: Block, maxChars: nat): seq<string>
    requires maxChars >= 1
  {
    var chunks := Render(b, maxChars);
    match b
    case Packed(_) => Paragraphs(chunks[0])
    case Sliced(_) => [Concat(chunks)]
  }

  function ReadAll(blocks: seq<Block>, maxChars: nat): seq<string>
    requires maxChars >= 1
  {
    if blocks == [] then [] else ReadBack(blocks[0], maxChars) + ReadAll(blocks[1..], maxChars)
  }

  lemma {:induction false} ReadAppend(a: seq<Block>, b: seq<Block>, maxChars: nat)
    requires maxChars >= 1
    ensures ReadAll(a + b, maxChars) == ReadAll(a, maxChars) + ReadAll(b, maxChars)
  {
    if a == [] {
      assert a + b == b;
    } else {
      assert (a + b)[1..] == a[1..] + b;
      ReadAppend(a[1..], b, maxChars);
    }
  }

  lemma {:induction false} ConcatSlices(p: string, maxChars: nat)
    requires maxChars >= 1
    ensures Concat(Slices(p, maxChars)) == p
    ensures forall c :: c in Slices(p, maxChars) ==> 1 <= |c| <= maxChars
    decreases |p|
  {
    if |p| > maxChars {
      ConcatSlices(p[maxChars..], maxChars);
      assert p == p[..maxChars] + p[maxChars..];
    } else if p != "" {
      assert [p][1..] == [];
    }
  }

  lemma ReadBackPacked(group: seq<string>, maxChars: nat)
    requires maxChars >= 1 && group != [] && forall p :: p in group ==> IsParagraph(p)
    ensures ReadAll([Packed(group)], maxChars) == group
  {
    assert [Packed(group)][1..] == [];
    SplitOfJoin(group);
    TrimmedUnchanged(group);
  }

  lemma ReadBackSliced(p: string, maxChars: nat)
    requires maxChars >= 1
    ensures ReadAll([Sliced(p)], maxChars) == [p]
  {
    assert [Sliced(p)][1..] == [];
    ConcatSlices(p, maxChars);
  }

  /** One paragraph neither loses nor reorders anything. */
  lemma EmittedReadsBack(current: seq<string>, p: string, maxChars: nat)
    requires maxChars >= 1 && forall q :: q in current ==> IsParagraph(q)
    ensures ReadAll(Emitted(current, p, maxChars), maxChars) + NextGroup(current, p, maxChars) == current + [p]
  {
    var over, long := Overflows(current, p, maxChars), |p| > maxChars;
    ReadAppend(if over then [Packed(current)] else [], if long then [Sliced(p)] else [], maxChars);
    if over { ReadBackPacked(current, maxChars); }
    if long { ReadBackSliced(p, maxChars); }
  }

  lemma NextGroupParagraphs(current: seq<string>, p: string, maxChars: nat)
    requires IsParagraph(p) && forall q :: q in current ==> IsParagraph(q)
    ensures forall q :: q in NextGroup(current, p, maxChars) ==> IsParagraph(q)
  {
  }

  /** Content and order survive: reading every block's chunks back gives the paragraph list. */
  lemma {:induction false} PackReadsBack(current: seq<string>, ps: seq<string>, maxChars: nat)
    requires maxChars >= 1
    requires forall p :: p in current ==> IsParagraph(p)
    requires forall p :: p in ps ==> IsParagraph(p)
    ensures ReadAll(Pack(current, ps, maxChars), maxChars) == current + ps
    decreases |ps|
  {
    if ps == [] {
      if current != [] { ReadBackPacked(current, maxChars); }
      assert current + ps == current;
    } else {
      var p, rest, next := ps[0], ps[1..], NextGroup(current, ps[0], maxChars);
      assert p in ps && forall q :: q in rest ==> q in ps;
      NextGroupParagraphs(current, p, maxChars);
      PackReadsBack(next, rest, maxChars);
      ReadAppend(Emitted(current, p, maxChars), Pack(next, rest, maxChars), maxChars);
      EmittedReadsBack(current, p, maxChars);
      AppendAssociates(ReadAll(Emitted(current, p, maxChars), maxChars), next, rest);
      AppendAssociates(current, [p], rest);
      assert ps == [p] + rest;
    }
  }

  lemma EmittedLengths(current: seq<string>, p: string, maxChars: nat)
    requires maxChars >= 1 && forall q :: q in current ==> IsParagraph(q)
    requires |Join(current)| <= maxChars
    ensures forall c :: c in RenderAll(Emitted(current, p, maxChars), maxChars) ==> 1 <= |c| <= maxChars
    ensures |Join(NextGroup(current, p, maxChars))| <= maxChars
  {
    var over, long := Overflows(current, p, maxChars), |p| > maxChars;
    var kept := if over then [] else current;
    JoinEmpty(current);
    JoinLast(kept, p);
    RenderSingle(Packed(current), maxChars);
    RenderSingle(Sliced(p), maxChars);
    ConcatSlices(p, maxChars);
    RenderAppend(if over then [Packed(current)] else [], if long then [Sliced(p)] else [], maxChars);
  }

  /** Every chunk is nonempty and at most maxChars long. */
  lemma {:induction false} ChunkLengths(current: seq<string>, ps: seq<string>, maxChars: nat)
    requires maxChars >= 1
    requires forall p :: p in current ==> IsParagraph(p)
    requires forall p :: p in ps ==> IsParagraph(p)
    requires |Join(current)| <= maxChars
    ensures forall c :: c in RenderAll(Pack(current, ps, maxChars), maxChars) ==> 1 <= |c| <= maxChars
    decreases |ps|
  {
    JoinEmpty(current);
    if ps == [] {
      RenderSingle(Packed(current), maxChars);
    } else {
      var p, next := ps[0], NextGroup(current, ps[0], maxChars);
      assert p in ps;
      EmittedLengths(current, p, maxChars);
      NextGroupParagraphs(current, p, maxChars);
      ChunkLengths(next, ps[1..], maxChars);
      RenderAppend(Emitted(current, p, maxChars), Pack(next, ps[1..], maxChars), maxChars);
    }
  }

  /** The chunker's promise for a whole text: bounded nonempty chunks that read back as its paragraphs. */
  lemma ChunksRecoverParagraphs(text: string, maxChars: nat)
    requires maxChars >= 1
    ensures var blocks := Pack([], Paragraphs(text), maxChars);
            && (forall c :: c in RenderAll(blocks, maxChars) ==> 1 <= |c| <= maxChars)
            && ReadAll(blocks, maxChars) == Paragraphs(text)
  {
    ParagraphsAreParagraphs(text);
    ChunkLengths([], Paragraphs(text), maxChars);
    PackReadsBack([], Paragraphs(text), maxChars);
    assert [] + Paragraphs(text) == Paragraphs(text);
  }

  // ---- Fewest chunks ------------------------------------------------------------------------

  /** The slices a stretch of so many characters is cut into. */
  function SliceCount(length: nat, maxChars: nat): nat
    requires maxChars >= 1
  {
    if length <= maxChars then (if length == 0 then 0 else 1) else 1 + SliceCount(length - maxChars, maxChars)
  }

  /** Chunks still to come when the open chunk holds `length` characters; 0 means none is open. */
  function Count(length: nat, ps: seq<string>, maxChars: nat): nat
    requires maxChars >= 1
    decreases |ps|
  {
    if ps == [] then (if length > 0 then 1 else 0)
    else if |ps[0]| > maxChars then
      (if length > 0 then 1 else 0) + SliceCount(|ps[0]|, maxChars) + Count(0, ps[1..], maxChars)
    else if length > 0 && length + |ps[0]| + 2 > maxChars then 1 + Count(|ps[0]|, ps[1..], maxChars)
    else Count(if length > 0 then length + 2 + |ps[0]| else |ps[0]|, ps[1..], maxChars)
  }

  predicate Solid(ps: seq<string>) { forall p :: p in ps ==> p != "" }

  lemma SolidRest(ps: seq<string>)
    requires Solid(ps) && ps != []
    ensures ps[0] != "" && Solid(ps[1..])
  {
    assert ps[0] in ps && forall p :: p in ps[1..] ==> p in ps;
  }

  predicate Short(ps: seq<string>, maxChars: nat) {
    forall p :: p in ps ==> 1 <= |p| <= maxChars
  }

  /** A fuller open chunk needs at least as many chunks, and at most one more. */
  lemma {:induction false} CountMonotone(a: nat, b: nat, ps: seq<string>, maxChars: nat)
    requires maxChars >= 1 && Solid(ps) && 0 < a && 0 < b
    ensures Count(a, ps, maxChars) <= 1 + Count(b, ps, maxChars)
    ensures a <= b ==> Count(a, ps, maxChars) <= Count(b, ps, maxChars)
    decreases |ps|
  {
    if ps != [] {
      var p, rest := ps[0], ps[1..];
      SolidRest(ps);
      CountMonotone(|p|, b + 2 + |p|, rest, maxChars);
      CountMonotone(a + 2 + |p|, |p|, rest, maxChars);
      CountMonotone(a + 2 + |p|, b + 2 + |p|, rest, maxChars);
    }
  }

  lemma OpenCostsAtMostOne(length: nat, ps: seq<string>, maxChars: nat)
    requires maxChars >= 1 && Solid(ps) && 0 < length
    ensures Count(length, ps, maxChars) <= 1 + Count(0, ps, maxChars)
  {
    if ps != [] {
      SolidRest(ps);
      CountMonotone(length + 2 + |ps[0]|, |ps[0]|, ps[1..], maxChars);
    }
  }

  lemma {:induction false} JoinGrows(done: seq<string>, todo: seq<string>)
    ensures |Join(done)| <= |Join(done + todo)|
  {
    if todo == [] {
      assert done + todo == done;
    } else {
      var init, last := todo[..|todo| - 1], todo[|todo| - 1];
      JoinGrows(done, init);
      JoinLast(done + init, last);
      assert done + todo == done + init + [last];
    }
  }

  /** A group that fits is absorbed whole by an open chunk that holds its beginning. */
  lemma {:induction false} Absorb(done: seq<string>, todo: seq<string>, rest: seq<string>, maxChars: nat)
    requires maxChars >= 1 && Short(done, maxChars) && Short(todo, maxChars)
    requires |Join(done + todo)| <= maxChars
    ensures Count(|Join(done)|, todo + rest, maxChars) == Count(|Join(done + todo)|, rest, maxChars)
    decreases |todo|
  {
    if todo == [] {
      assert todo + rest == rest && done + todo == done;
    } else {
      var p, more := todo[0], todo[1..];
      assert todo == [p] + more && p in todo;
      AppendAssociates(done, [p], more);
      AppendAssociates([p], more, rest);
      JoinGrows(done + [p], more);
      AbsorbOne(done, p, more + rest, maxChars);
      Absorb(done + [p], more, rest, maxChars);
    }
  }

  lemma AbsorbOne(done: seq<string>, p: string, rest: seq<string>, maxChars: nat)
    requires maxChars >= 1 && Short(done, maxChars) && 1 <= |p| <= maxChars && |Join(done + [p])| <= maxChars
    ensures Count(|Join(done)|, [p] + rest, maxChars) == Count(|Join(done + [p])|, rest, maxChars)
  {
    JoinLast(done, p);
    JoinNonEmpty(done);
    assert ([p] + rest)[1..] == rest;
  }

  lemma JoinNonEmpty(group: seq<string>)
    requires Solid(group)
    ensures |Join(group)| > 0 <==> group != []
  {
    if group != [] {
      assert group[|group| - 1] in group;
    }
  }

  /** What one step of some other chunking makes: a chunk of whole paragraphs, or the parts of one paragraph. */
  datatype Portion = Whole(group: seq<string>) | Parted(parts: seq<string>)

  function Portioned(portion: Portion): seq<string> {
    match portion
    case Whole(group) => group
    case Parted(parts) => [Concat(parts)]
  }

  /** The paragraphs a chunking covers, in order. */
  function Covered(plan: seq<Portion>): seq<string> {
    if plan == [] then [] else Portioned(plan[0]) + Covered(plan[1..])
  }

  function Cost(portion: Portion): nat { if portion.Whole? then 1 else |portion.parts| }

  function TotalCost(plan: seq<Portion>): nat {
    if plan == [] then 0 else Cost(plan[0]) + TotalCost(plan[1..])
  }

  /** Every chunk of the portion has at most `maxChars` characters. */
  predicate Fits(portion: Portion, maxChars: nat) {
    match portion
    case Whole(group) => |Join(group)| <= maxChars
    case Parted(parts) => forall part :: part in parts ==> |part| <= maxChars
  }

  predicate AllFit(plan: seq<Portion>, maxChars: nat) { forall portion :: portion in plan ==> Fits(portion, maxChars) }

  lemma {:induction false} SliceCountGrows(length: nat, more: nat, maxChars: nat)
    requires maxChars >= 1 && more <= maxChars
    ensures SliceCount(length + more, maxChars) <= 1 + SliceCount(length, maxChars)
  {
    if length > maxChars { SliceCountGrows(length - maxChars, more, maxChars); }
  }

  /** No cut of a paragraph into parts that fit has fewer of them than there are slices. */
  lemma {:induction false} SlicesAreFewest(parts: seq<string>, maxChars: nat)
    requires maxChars >= 1 && forall part :: part in parts ==> |part| <= maxChars
    ensures SliceCount(|Concat(parts)|, maxChars) <= |parts|
  {
    if parts != [] {
      assert parts[0] in parts && forall part :: part in parts[1..] ==> part in parts;
      SlicesAreFewest(parts[1..], maxChars);
      SliceCountGrows(|Concat(parts[1..])|, |parts[0]|, maxChars);
    }
  }

  lemma {:induction false} MembersFit(group: seq<string>, maxChars: nat)
    requires Solid(group) && |Join(group)| <= maxChars
    ensures Short(group, maxChars)
  {
    if group != [] {
      var init, last := group[..|group| - 1], group[|group| - 1];
      assert group == init + [last] && last in group && forall p :: p in init ==> p in group;
      JoinLast(init, last);
      MembersFit(init, maxChars);
    }
  }

  lemma WholeCost(group: seq<string>, rest: seq<string>, maxChars: nat)
    requires maxChars >= 1 && Solid(group) && Solid(rest) && |Join(group)| <= maxChars
    ensures Count(0, group + rest, maxChars) <= 1 + Count(0, rest, maxChars)
  {
    if group == [] {
      assert group + rest == rest;
    } else {
      assert [] + group == group;
      MembersFit(group, maxChars);
      Absorb([], group, rest, maxChars);
      JoinNonEmpty(group);
      OpenCostsAtMostOne(|Join(group)|, rest, maxChars);
    }
  }

  lemma PartedCost(parts: seq<string>, rest: seq<string>, maxChars: nat)
    requires maxChars >= 1 && Concat(parts) != "" && Solid(rest) && forall part :: part in parts ==> |part| <= maxChars
    ensures Count(0, [Concat(parts)] + rest, maxChars) <= |parts| + Count(0, rest, maxChars)
  {
    var p := Concat(parts);
    assert ([p] + rest)[1..] == rest;
    SlicesAreFewest(parts, maxChars);
    if |p| <= maxChars { OpenCostsAtMostOne(|p|, rest, maxChars); }
  }

  lemma {:induction false} CountIsLeast(plan: seq<Portion>, maxChars: nat)
    requires maxChars >= 1 && Solid(Covered(plan)) && AllFit(plan, maxChars)
    ensures Count(0, Covered(plan), maxChars) <= TotalCost(plan)
  {
    if plan != [] {
      var rest := Covered(plan[1..]);
      assert forall p :: p in rest ==> p in Covered(plan);
      assert forall p :: p in Portioned(plan[0]) ==> p in Covered(plan);
      assert plan[0] in plan && forall portion :: portion in plan[1..] ==> portion in plan;
      CountIsLeast(plan[1..], maxChars);
      match plan[0]
      case Whole(group) => WholeCost(group, rest, maxChars);
      case Parted(parts) =>
        assert Concat(parts) in Portioned(plan[0]);
        PartedCost(parts, rest, maxChars);
    }
  }

  lemma {:induction false} SlicesCount(p: string, maxChars: nat)
    requires maxChars >= 1
    ensures |Slices(p, maxChars)| == SliceCount(|p|, maxChars)
  {
    if |p| > maxChars { SlicesCount(p[maxChars..], maxChars); }
  }

  /** The chunks the packer makes are as many as counted. */
  lemma {:induction false} PackCount(current: seq<string>, ps: seq<string>, maxChars: nat)
    requires maxChars >= 1 && Solid(current) && Solid(ps)
    ensures |RenderAll(Pack(current, ps, maxChars), maxChars)| == Count(|Join(current)|, ps, maxChars)
    decreases |ps|
  {
    JoinNonEmpty(current);
    if ps == [] {
      RenderSingle(Packed(current), maxChars);
    } else {
      var p, rest, next := ps[0], ps[1..], NextGroup(current, ps[0], maxChars);
      SolidRest(ps);
      assert ps == [p] + rest;
      CountStep(current, p, rest, maxChars);
      PackCount(next, rest, maxChars);
      EmittedCount(current, p, maxChars);
      RenderAppend(Emitted(current, p, maxChars), Pack(next, rest, maxChars), maxChars);
    }
  }

  /** The chunks that reaching paragraph `p` closes. */
  function StepCount(current: seq<string>, p: string, maxChars: nat): nat
    requires maxChars >= 1
  {
    (if Overflows(current, p, maxChars) then 1 else 0) + if |p| > maxChars then SliceCount(|p|, maxChars) else 0
  }

  lemma CountStep(current: seq<string>, p: string, rest: seq<string>, maxChars: nat)
    requires maxChars >= 1 && Solid(current) && p != ""
    ensures Solid(NextGroup(current, p, maxChars))
    ensures Count(|Join(current)|, [p] + rest, maxChars)
            == StepCount(current, p, maxChars) + Count(|Join(NextGroup(current, p, maxChars))|, rest, maxChars)
  {
    JoinNonEmpty(current);
    JoinLast([], p);
    JoinLast(current, p);
    assert ([p] + rest)[1..] == rest;
  }

  lemma EmittedCount(current: seq<string>, p: string, maxChars: nat)
    requires maxChars >= 1
    ensures |RenderAll(Emitted(current, p, maxChars), maxChars)| == StepCount(current, p, maxChars)
  {
    RenderSingle(Packed(current), maxChars);
    EmittedRenders([], current, p, maxChars);
    SlicesCount(p, maxChars);
  }

  /**
   No chunking of a text makes fewer chunks: not one that packs neighbouring paragraphs into chunks in
   any other way, nor one that cuts any of them, long or short, into other parts.
   */
  lemma FewestChunks(text: string, maxChars: nat, plan: seq<Portion>)
    requires maxChars >= 1 && AllFit(plan, maxChars) && Covered(plan) == Paragraphs(text)
    ensures |RenderAll(Pack([], Paragraphs(text), maxChars), maxChars)| <= TotalCost(plan)
  {
    ParagraphsAreParagraphs(text);
    PackCount([], Paragraphs(text), maxChars);
    CountIsLeast(plan, maxChars);
  }

  // ---- The index -----------------------------------------------------------------------------

  datatype ChunkRow = ChunkRow(articleId: nat, chunkIndex: nat, chunkText: string, tokenCount: nat)

  function EstimateTokens(text: string): nat {
    if |text| / 4 > 1 then |text| / 4 else 1
  }

  function RowsFor(articleId: nat, chunks: seq<string>): seq<ChunkRow> {
    seq(|chunks|, i requires 0 <= i < |chunks| => ChunkRow(articleId, i, chunks[i], EstimateTokens(chunks[i])))
  }

  function Without(rows: seq<ChunkRow>, articleId: nat): seq<ChunkRow> {
    if rows == [] then []
    else (if rows[0].articleId == articleId then [] else [rows[0]]) + Without(rows[1..], articleId)
  }

  function OwnRow(row: ChunkRow, articleId: nat): seq<ChunkRow> {
    if row.articleId == articleId then [row] else []
  }

  function ChunksOf(rows: seq<ChunkRow>, articleId: nat): seq<ChunkRow> {
    if rows == [] then []
    else OwnRow(rows[0], articleId) + ChunksOf(rows[1..], articleId)
  }

  const CHUNK_SIZE: nat := 1200

  /** The chunk table. */
  class ChunkIndex {
    var rows: seq<ChunkRow>

    constructor ()
      ensures rows == []
    {
      rows := [];
    }

    /** Indexing replaces an article's chunks and touches no other article. */
    method IndexArticle(articleId: nat, body: string) returns (count: nat)
      modifies this
      ensures rows == Without(old(rows), articleId) + RowsFor(articleId,
              RenderAll(Pack([], Paragraphs(body), CHUNK_SIZE), CHUNK_SIZE))
      ensures count == |RenderAll(Pack([], Paragraphs(body), CHUNK_SIZE), CHUNK_SIZE)|
    {
      rows := Without(rows, articleId);
      var chunks := ChunkText(body, CHUNK_SIZE);
      ghost var kept := rows;
      var i := 0;
      while i < |chunks|
        invariant 0 <= i <= |chunks|
        invariant rows == kept + RowsFor(articleId, chunks[..i])
      {
        RowsForLast(articleId, chunks, i);
        AppendAssociates(kept, RowsFor(articleId, chunks[..i]),
            [ChunkRow(articleId, i, chunks[i], EstimateTokens(chunks[i]))]);
        rows := rows + [ChunkRow(articleId, i, chunks[i], EstimateTokens(chunks[i]))];
        i := i + 1;
      }
      assert chunks[..i] == chunks;
      count := |chunks|;
    }
  }

  lemma RowsForLast(articleId: nat, chunks: seq<string>, i: nat)
    requires i < |chunks|
    ensures RowsFor(articleId, chunks[..i + 1])
            == RowsFor(articleId, chunks[..i]) + [ChunkRow(articleId, i, chunks[i], EstimateTokens(chunks[i]))]
  {
  }

  lemma ChunksOfCons(row: ChunkRow, rows: seq<ChunkRow>, articleId: nat)
    ensures ChunksOf([row] + rows, articleId) == OwnRow(row, articleId) + ChunksOf(rows, articleId)
  {
    assert ([row] + rows)[1..] == rows;
  }

  lemma {:induction false} ChunksOfAppend(a: seq<ChunkRow>, b: seq<ChunkRow>, articleId: nat)
    ensures ChunksOf(a + b, articleId) == ChunksOf(a, articleId) + ChunksOf(b, articleId)
  {
    if a == [] {
      assert a + b == b;
    } else {
      ChunksOfAppend(a[1..], b, articleId);
      ChunksOfCons(a[0], a[1..] + b, articleId);
      assert a + b == [a[0]] + (a[1..] + b);
      AppendAssociates(OwnRow(a[0], articleId), ChunksOf(a[1..], articleId), ChunksOf(b, articleId));
    }
  }

  lemma {:induction false} ChunksOfWithout(rows: seq<ChunkRow>, articleId: nat, other: nat)
    ensures ChunksOf(Without(rows, articleId), other) == if other == articleId then [] else ChunksOf(rows, other)
  {
    if rows != [] {
      ChunksOfWithout(rows[1..], articleId, other);
      ChunksOfAppend(if rows[0].articleId == articleId then [] else [rows[0]], Without(rows[1..], articleId), other);
    }
  }

  lemma {:induction false} ChunksOfOwn(rows: seq<ChunkRow>, articleId: nat, other: nat)
    requires forall r :: r in rows ==> r.articleId == articleId
    ensures ChunksOf(rows, other) == if other == articleId then rows else []
  {
    if rows != [] {
      assert rows[0] in rows;
      ChunksOfOwn(rows[1..], articleId, other);
    }
  }

  /** After indexing, an article's rows are its chunks in order; every other article's rows are as before. */
  lemma ReindexReplaces(rows: seq<ChunkRow>, articleId: nat, chunks: seq<string>, other: nat)
    ensures ChunksOf(Without(rows, articleId) + RowsFor(articleId, chunks), other)
            == if other == articleId then RowsFor(articleId, chunks) else ChunksOf(rows, other)
  {
    ChunksOfAppend(Without(rows, articleId), RowsFor(articleId, chunks), other);
    ChunksOfWithout(rows, articleId, other);
    ChunksOfOwn(RowsFor(articleId, chunks), articleId, other);
  }

  /** The estimate is a quarter of the length rounded down, but at least one. */
  lemma TokensAreQuarters(text: string)
    ensures |text| < 8 ==> EstimateTokens(text) == 1
    ensures |text| >= 4 ==> 4 * EstimateTokens(text) <= |text| < 4 * EstimateTokens(text) + 4
  {
  }

  /** After indexing, the k-th row of the article holds its k-th chunk, of at most 1200 characters, and its tokens. */
  lemma IndexedRow(rows: seq<ChunkRow>, articleId: nat, body: string, k: nat)
    ensures var chunks := RenderAll(Pack([], Paragraphs(body), CHUNK_SIZE), CHUNK_SIZE);
            var own := ChunksOf(Without(rows, articleId) + RowsFor(articleId, chunks), articleId);
            && |own| == |chunks|
            && (k < |own| ==>
                  && own[k].articleId == articleId && own[k].chunkIndex == k && own[k].chunkText == chunks[k]
                  && 0 < |own[k].chunkText| <= 1200 && own[k].tokenCount == EstimateTokens(chunks[k]))
  {
    var ps := Paragraphs(body);
    var chunks := RenderAll(Pack([], ps, CHUNK_SIZE), CHUNK_SIZE);
    ReindexReplaces(rows, articleId, chunks, articleId);
    ChunksRecoverParagraphs(body, CHUNK_SIZE);
  }

  // ---- The parts of a text ------------------------------------------------------------------------

  lemma {:induction false} JoinFront(first: string, rest: seq<string>)
    requires rest != []
    ensures Join([first] + rest) == first + BREAK + Join(rest)
  {
    var all, n := [first] + rest, |rest| - 1;
    assert all[..|all| - 1] == [first] + rest[..n];
    if n > 0 {
      JoinFront(first, rest[..n]);
      assert first + BREAK + Join(rest[..n]) + BREAK + rest[n] == first + BREAK + (Join(rest[..n]) + BREAK + rest[n]);
    } else {
      assert [first] + rest[..0] == [first];
    }
  }

  lemma PutInFront(c: char, first: string, rest: seq<string>)
    ensures Join([[c] + first] + rest) == [c] + Join([first] + rest)
  {
    if rest != [] {
      JoinFront([c] + first, rest);
      JoinFront(first, rest);
      assert ([c] + first) + BREAK + Join(rest) == [c] + (first + BREAK + Join(rest));
    } else {
      assert [[c] + first] + rest == [[c] + first] && [first] + rest == [first];
    }
  }

  /** The parts a text is split into spell it with breaks between them, and hold none themselves. */
  lemma {:induction false} PartsSpellText(s: string)
    ensures Join(SplitBreaks(s)) == s
    ensures forall k :: 0 <= k < |SplitBreaks(s)| ==> NoBreak(SplitBreaks(s)[k])
    decreases |s|
  {
    PartsHaveNoBreak(s);
    if s == "" {
    } else if BREAK <= s {
      PartsSpellText(s[2..]);
      JoinFront("", SplitBreaks(s[2..]));
      assert s == BREAK + s[2..] && "" + BREAK == BREAK;
    } else {
      var rest := SplitBreaks(s[1..]);
      PartsSpellText(s[1..]);
      assert rest == [rest[0]] + rest[1..];
      PutInFront(s[0], rest[0], rest[1..]);
      assert s == [s[0]] + s[1..];
    }
  }
}
